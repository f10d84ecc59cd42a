// The job's shared objects as one object updated in place, one method per atomic access, each
// a step of Scheduler.dfy. The object is valid when it has the invariant of the whole job;
// every method keeps it, and gets from it what the code takes for granted of the counts, the
// lists and the queues. A caller only has to stand before the access.

module SchedulerObjects {
  import opened Basics
  import opened ModuleGraphs
  import opened Schedulers
  import opened SchedulerPrefetch
  import opened SchedulerQueues
  import opened SchedulerValues
  import opened SchedulerPaths
  import opened SchedulerDemand
  import opened SchedulerLists
  import opened SchedulerProgress
  import WL = WaitLists
  import WQ = WorkQueues

  /** The waiter has one share less of its task, which is ready if it was the last, and this
      exception unless it had one; a path goes on with the exception. */
  predicate LeftWith(s: State, s': State, w: Waiter, exc: Option<Exc>) {
    match w
    case Getter(n, _) =>
      && n < |s.nodes| && n < |s'.nodes|
      && s'.nodes[n].refs == s.nodes[n].refs - 1 && (s'.nodes[n].refs == 0 ==> s'.nodes[n].phase.Ready?)
      && s'.nodes[n].failed == if s.nodes[n].failed.Some? then s.nodes[n].failed else exc
    case OnPath(p, i) => p < |s'.paths| && s'.paths[p].pc == Fired(i, exc)
  }

  lemma ReleaseLeaves(s: State, d: nat, w: Waiter, reader: bool)
    requires d < |s.nodes| && CanLetGo(s, d, w)
    ensures var s' := DoRelease(s, d, w, reader);
      |s'.nodes| == |s.nodes| && w !in s'.nodes[d].list.waiting && LeftWith(s, s', w, s.nodes[d].list.exc)
  {
  }

  /** Whoever was taken from a list may be let go. */
  lemma TakenLeaves(c: Config, s: State, d: nat, w: Waiter, reader: bool) returns (next: State)
    requires Schedulers.Valid(c) && Fits(c, s) && Inv(c, s) && d < |s.nodes|
    requires w in s.nodes[d].list.waiting && w !in s.nodes[d].list.head && (reader ==> !s.nodes[d].list.taking)
    ensures s.nodes[d].list.closed && CanLetGo(s, d, w)
    ensures next == Step(c, s, Action.Release(d, w, reader)) == DoRelease(s, d, w, reader) && Inv(c, next)
    ensures w !in next.nodes[d].list.waiting && LeftWith(s, next, w, s.nodes[d].list.exc)
  {
    TakenIsClosed(c, s, d, w);
    assert WaiterAt(c, s, d, w) && (w.Getter? ==> NodeAt(c, s, w.node));
    next := DoRelease(s, d, w, reader);
    ReleaseLeaves(s, d, w, reader);
    ApplyKeepsInv(c, s, Action.Release(d, w, reader));
  }

  /** What a module comes to when it works. */
  lemma WorkCarries(c: Config, s: State, n: nat) returns (next: State)
    requires Schedulers.Valid(c) && Fits(c, s) && Inv(c, s) && n < |s.nodes| && s.nodes[n].phase.Running?
    ensures next == Step(c, s, Action.Work(n)) && Inv(c, next)
    ensures s.nodes[n].failed == None <==> Inputs(c.g, n, |c.g.deps[n]|) != None
    ensures s.nodes[n].failed == None ==> n !in s.ran
    ensures Carries(Eval(c.g, n), Culprits(c.g, n), next.nodes[n].phase.exc, next.nodes[n])
  {
    next := Step(c, s, Action.Work(n));
    ReadsInputs(c, s, n);
    ApplyKeepsInv(c, s, Action.Work(n));
    assert RanAt(c, s, n) && NodeAt(c, s, n) && MeaningAt(c, next, n);
  }

  /** What get(Getter) finds for the getters of n, in their order. */
  ghost predicate AreThere(c: Config, nodes: seq<NodeState>, n: nat, inputs: seq<int>)
    requires Schedulers.Valid(c) && |nodes| == |c.g.deps| && n < |nodes|
  {
    |inputs| == |c.g.deps[n]| && forall i | 0 <= i < |inputs| :: inputs[i] == nodes[c.g.deps[n][i]].value
  }

  lemma OnlyThese(c: Config, nodes: seq<NodeState>, n: nat, inputs: seq<int>)
    requires Schedulers.Valid(c) && |nodes| == |c.g.deps| && n < |nodes| && AreThere(c, nodes, n, inputs)
    ensures forall others | AreThere(c, nodes, n, others) :: others == inputs
  {
  }

  class Job {
    const c: Config
    var nodes: seq<NodeState>
    var queues: seq<WQ.WorkQueue<nat>>
    var paths: seq<PathState>
    var events: seq<EventState>
    var starts: set<Starter>
    var fatal: bool
    var ran: seq<nat>

    ghost function View(): State
      reads this
    {
      State(nodes, queues, paths, events, starts, fatal, ran)
    }

    ghost predicate Valid()
      reads this
    {
      Schedulers.Valid(c) && Fits(c, View()) && Inv(c, View())
    }

    /** The filter that the path asks for next has just closed its list. */
    predicate JustClosed(p: nat)
      reads this
    {
      && p < |paths| && paths[p].pc.Ask? && p < |c.filters| && paths[p].pc.at < |c.filters[p]|
      && c.filters[p][paths[p].pc.at] < |nodes| && nodes[c.filters[p][paths[p].pc.at]].list.closed
    }

    /** The thread that prefetches for n has left the list of the getter it is at. */
    predicate LookedAgain(n: nat)
      reads this
    {
      n < |nodes| && nodes[n].phase.Fetch? && n < |c.g.deps| && nodes[n].phase.at < |c.g.deps[n]| &&
      var d := c.g.deps[n][nodes[n].phase.at];
      d < |nodes| ==> Getter(n, nodes[n].phase.at) !in nodes[d].list.rechecks
    }

    constructor (config: Config)
      requires Schedulers.Valid(config)
      ensures Valid() && c == config && View() == Init(config)
    {
      c := config;
      nodes := seq(|config.g.deps|, _ => NodeState(Idle, 0, None, WL.Empty(CACHE), 0, false, {}));
      queues := seq(config.queues, _ => WQ.Empty());
      paths := seq(|config.filters|, _ => PathState(Dormant, 0));
      events := seq(|config.pathsOf|, _ => EventState(Launch(0), 1, None, {}));
      starts, fatal, ran := {}, false, [];
      new;
      InitInv(c);
    }

    /** prefetchAsync: m_waitingTasks.add of the next getter's module. */
    method FetchAdd(n: nat, late: bool)
      requires Valid() && n < |nodes| && nodes[n].phase.Fetch? && !nodes[n].phase.added
      requires nodes[n].phase.at < |c.g.deps[n]|
      requires late ==> nodes[c.g.deps[n][nodes[n].phase.at]].list.closed
      modifies `nodes
      ensures Valid() && View() == Step(c, old(View()), Action.FetchAdd(n, late))
    {
      ghost var next := Step(c, View(), Action.FetchAdd(n, late));
      ApplyKeepsInv(c, View(), Action.FetchAdd(n, late));
      var i := nodes[n].phase.at;
      var d := c.g.deps[n][i];
      var list := nodes[d].list;
      if list.closed && !late {
        nodes := nodes[n := nodes[n].(failed := FirstOf(nodes[n].failed, list.exc))];
      } else {
        nodes := nodes[d := nodes[d].(list := WL.Join(list, Getter(n, i)))];
        nodes := nodes[n := nodes[n].(refs := nodes[n].refs + 1, out := nodes[n].out + {i})];
      }
      nodes := nodes[n := nodes[n].(phase := Fetch(i, true))];
      assert nodes == next.nodes;
    }

    /** prefetchAsync: m_workStarted of the getter's module, then on to the next getter. */
    method FetchStart(n: nat)
      requires Valid() && n < |nodes| && nodes[n].phase.Fetch? && nodes[n].phase.added && LookedAgain(n)
      modifies `nodes
      ensures Valid() && View() == Step(c, old(View()), Action.FetchStart(n))
    {
      assert NodeAt(c, View(), n);
      ghost var next := Step(c, View(), Action.FetchStart(n));
      ApplyKeepsInv(c, View(), Action.FetchStart(n));
      var i := nodes[n].phase.at;
      var d := c.g.deps[n][i];
      if nodes[d].phase.Idle? {
        nodes := nodes[d := nodes[d].(phase := Fetch(0, false), refs := 1)];
      }
      nodes := nodes[n := nodes[n].(phase := Fetch(i + 1, false))];
      assert nodes == next.nodes;
    }

    method FetchEnd(n: nat)
      requires Valid() && n < |nodes| && nodes[n].phase == Fetch(|c.g.deps[n]|, false)
      modifies `nodes
      ensures Valid() && View() == Step(c, old(View()), Action.FetchEnd(n))
    {
      assert NodeAt(c, View(), n);
      ghost var next := Step(c, View(), Action.FetchEnd(n));
      ApplyKeepsInv(c, View(), Action.FetchEnd(n));
      nodes := nodes[n := nodes[n].(refs := nodes[n].refs - 1)];
      nodes := nodes[n := nodes[n].(phase := if nodes[n].refs == 0 then Ready else Prefetched)];
      assert nodes == next.nodes;
    }

    /** RunModuleTask::execute. */
    method Execute(n: nat)
      requires Valid() && n < |nodes| && nodes[n].phase.Ready?
      modifies `nodes, `queues
      ensures Valid() && View() == Step(c, old(View()), Action.Execute(n))
      ensures match c.queue[n]
              case None => nodes[n].phase.Running? && queues == old(queues)
              case Some(q) => nodes[n].phase.Queued? && q < |queues| && queues[q].waiting == old(queues)[q].waiting + [n]
    {
      ApplyKeepsInv(c, View(), Action.Execute(n));
      if c.queue[n].Some? {
        var q := c.queue[n].value;
        nodes := nodes[n := nodes[n].(phase := Queued)];
        queues := queues[q := WQ.Push(queues[q], n)];
      } else {
        nodes := nodes[n := nodes[n].(phase := Running)];
      }
    }

    method StartQueued(q: nat)
      requires Valid() && q < |queues| && queues[q].running == None && queues[q].waiting != []
      modifies `nodes, `queues
      ensures Valid() && View() == Step(c, old(View()), Action.StartQueued(q))
      ensures forall m | 0 <= m < |nodes| && c.queue[m] == Some(q) && Inside(nodes[m]) ::
        queues[q].running == Some(m)
    {
      HeadIsQueued(c, View(), q);
      ApplyKeepsInv(c, View(), Action.StartQueued(q));
      var n := queues[q].waiting[0];
      queues := queues[q := WQ.Start(queues[q])];
      nodes := nodes[n := nodes[n].(phase := Running)];
      forall m | 0 <= m < |nodes| && c.queue[m] == Some(q) && Inside(nodes[m])
        ensures queues[q].running == Some(m)
      {
        assert SeatAt(c, View(), m);
      }
    }

    /** get of each getter of the module. */
    method Gets(n: nat) returns (inputs: seq<int>)
      requires Valid() && n < |nodes|
      ensures AreThere(c, nodes, n, inputs)
    {
      inputs := [];
      for i := 0 to |c.g.deps[n]|
        invariant |inputs| == i
        invariant forall j | 0 <= j < i :: inputs[j] == nodes[c.g.deps[n][j]].value
      {
        inputs := inputs + [nodes[c.g.deps[n][i]].value];
      }
    }

    /** runModuleAfterAsyncPrefetch up to doneWaiting. */
    method Work(n: nat)
      requires Valid() && n < |nodes| && nodes[n].phase.Running?
      modifies `nodes, `ran
      ensures Valid() && View() == Step(c, old(View()), Action.Work(n))
      ensures old(nodes)[n].failed == None <==> Inputs(c.g, n, |c.g.deps[n]|) != None
      ensures old(nodes)[n].failed == None ==> n !in old(ran) && ran == old(ran) + [n]
      ensures Carries(Eval(c.g, n), Culprits(c.g, n), nodes[n].phase.exc, nodes[n])
      ensures old(nodes)[n].failed.Some? ==> nodes[n].phase.exc == old(nodes)[n].failed && ran == old(ran)
      ensures old(nodes)[n].failed == None ==>
        forall inputs {:trigger c.g.work(n, inputs)} | AreThere(c, old(nodes), n, inputs) ::
          match c.g.work(n, inputs)
          case Put(v) => nodes[n].cached && nodes[n].value == v && nodes[n].phase.exc == None
          case Threw => !nodes[n].cached && nodes[n].phase.exc == Some(n)
    {
      ghost var next := WorkCarries(c, View(), n);
      ghost var before := nodes;
      var exc := nodes[n].failed;
      if exc == None {
        var inputs := Gets(n);
        OnlyThese(c, before, n, inputs);
        assert inputs == Read(c, View(), n);
        ran := ran + [n];
        var outcome := c.g.work(n, inputs);
        if outcome.Put? {
          nodes := nodes[n := nodes[n].(value := outcome.value, cached := true)];
        } else {
          exc := Some(n);
        }
      }
      nodes := nodes[n := nodes[n].(phase := Worked(exc))];
      assert nodes == next.nodes;
    }

    /** doneWaiting clears m_waiting. */
    method Announce(n: nat)
      requires Valid() && n < |nodes| && nodes[n].phase.Worked?
      modifies `nodes
      ensures Valid() && View() == Step(c, old(View()), Action.Announce(n))
      ensures !old(nodes)[n].list.closed && nodes[n].list.closed && nodes[n].list.exc == old(nodes)[n].phase.exc
      ensures nodes[n].phase.Ended? && nodes[n].list.waiting == old(nodes)[n].list.waiting
    {
      ApplyKeepsInv(c, View(), Action.Announce(n));
      assert NodeAt(c, View(), n);
      var x := nodes[n];
      nodes := nodes[n := x.(phase := Ended, list := WL.Close(x.list, x.phase.exc))];
    }

    /** The queued action has returned. */
    method Leave(q: nat)
      requires Valid() && q < |queues| && queues[q].running.Some?
      requires queues[q].running.value < |nodes| ==> !Inside(nodes[queues[q].running.value])
      modifies `queues
      ensures Valid() && View() == Step(c, old(View()), Action.Leave(q))
    {
      ApplyKeepsInv(c, View(), Action.Leave(q));
      queues := queues[q := WQ.Finish(queues[q])];
    }

    /** And goes on to exchange the head. */
    method Take(d: nat)
      requires Valid() && d < |nodes| && nodes[d].list.taking
      modifies `nodes
      ensures Valid() && View() == Step(c, old(View()), Action.Take(d))
      ensures nodes[d].list.waiting == old(nodes)[d].list.waiting && nodes[d].list.closed
    {
      ApplyKeepsInv(c, View(), Action.Take(d));
      assert ListAt(c, View(), d);
      nodes := nodes[d := nodes[d].(list := WL.Take(nodes[d].list))];
    }

    /** An adder that linked to null looks at m_waiting again, and exchanges the head if it was
        cleared. */
    method Recheck(d: nat, w: Waiter)
      requires Valid() && d < |nodes| && w in nodes[d].list.rechecks
      modifies `nodes
      ensures Valid() && View() == Step(c, old(View()), Action.Recheck(d, w))
    {
      ApplyKeepsInv(c, View(), Action.Recheck(d, w));
      var l := nodes[d].list.(rechecks := nodes[d].list.rechecks - {w});
      if l.closed {
        l := l.(head := {});
      }
      nodes := nodes[d := nodes[d].(list := l)];
    }

    /** announce hands one of those taken its exception and lets it go. */
    method Release(d: nat, w: Waiter, reader: bool)
      requires Valid() && d < |nodes| && w in nodes[d].list.waiting && w !in nodes[d].list.head
      requires reader ==> !nodes[d].list.taking
      modifies `nodes, `paths
      ensures Valid() && View() == Step(c, old(View()), Action.Release(d, w, reader))
      ensures old(nodes)[d].list.closed && w !in nodes[d].list.waiting
      ensures LeftWith(old(View()), View(), w, old(nodes)[d].list.exc)
    {
      ghost var next := TakenLeaves(c, View(), d, w, reader);
      var exc := nodes[d].list.exc;
      nodes := nodes[d := nodes[d].(list := WL.Leave(nodes[d].list, w, reader))];
      match w
      case Getter(n, i) =>
        var x := nodes[n].(failed := FirstOf(nodes[n].failed, exc), refs := nodes[n].refs - 1, out := nodes[n].out - {i});
        nodes := nodes[n := if x.refs == 0 then x.(phase := Ready) else x];
      case OnPath(p, i) =>
        paths := paths[p := paths[p].(pc := Fired(i, exc))];
      assert View() == next;
    }

    /** announce reads m_fromCache of the node it has let go; that it is there comes with the
        invariant. */
    method Look(d: nat)
      requires Valid() && d < |nodes| && nodes[d].list.reading
      modifies `nodes
      ensures Valid() && View() == Step(c, old(View()), Action.Look(d))
      ensures !old(nodes)[d].list.deleted
    {
      ApplyKeepsInv(c, View(), Action.Look(d));
      assert ListAt(c, View(), d);
      nodes := nodes[d := nodes[d].(list := WL.Look(nodes[d].list))];
    }

    /** Schedule::processAsync: the next path with a copy of the all-paths-done holder. */
    method LaunchPath(e: nat)
      requires Valid() && e < |events| && events[e].pc.Launch? && events[e].pc.at < |c.pathsOf[e]|
      requires LauncherBack(c, View(), e)
      modifies `paths, `events
      ensures Valid() && View() == Step(c, old(View()), Action.LaunchPath(e))
    {
      ApplyKeepsInv(c, View(), Action.LaunchPath(e));
      var k := events[e].pc.at;
      var p := c.pathsOf[e][k];
      events := events[e := EventState(Launch(k + 1), events[e].refs + 1, events[e].exc, events[e].live + {p})];
      if c.filters[p] != [] {
        paths := paths[p := paths[p].(pc := Request(0))];
      } else {
        paths := paths[p := paths[p].(pc := Stopping(None))];
      }
    }

    method LaunchEnd(e: nat)
      requires Valid() && e < |events| && events[e].pc == Launch(|c.pathsOf[e]|) && LauncherBack(c, View(), e)
      modifies `events
      ensures Valid() && View() == Step(c, old(View()), Action.LaunchEnd(e))
    {
      assert CountAt(c, View(), e);
      ghost var next := Step(c, View(), Action.LaunchEnd(e));
      ApplyKeepsInv(c, View(), Action.LaunchEnd(e));
      events := events[e := events[e].(refs := events[e].refs - 1)];
      events := events[e := events[e].(pc := if events[e].refs == 0 then Scheduled else Launched)];
      assert events == next.events;
    }

    /** runFilterAsync. */
    method PathRequest(p: nat)
      requires Valid() && p < |paths| && paths[p].pc.Request?
      modifies `paths
      ensures Valid() && View() == Step(c, old(View()), Action.PathRequest(p))
      ensures paths[p].pc == if fatal then Stopping(None) else Ask(old(paths)[p].pc.at)
    {
      ApplyKeepsInv(c, View(), Action.PathRequest(p));
      if fatal {
        paths := paths[p := paths[p].(pc := Stopping(None))];
      } else {
        paths := paths[p := paths[p].(pc := Ask(paths[p].pc.at))];
      }
    }

    method PathAsk(p: nat, late: bool)
      requires Valid() && p < |paths| && paths[p].pc.Ask? && (late ==> JustClosed(p))
      modifies `nodes, `paths, `starts
      ensures Valid() && View() == Step(c, old(View()), Action.PathAsk(p, late))
    {
      assert PathAt(c, View(), p);
      ApplyKeepsInv(c, View(), Action.PathAsk(p, late));
      var i := paths[p].pc.at;
      var f := c.filters[p][i];
      starts := starts + {Starter(p, i)};
      if nodes[f].list.closed && !late {
        paths := paths[p := PathState(Fired(i, nodes[f].list.exc), i + 1)];
      } else {
        nodes := nodes[f := nodes[f].(list := WL.Join(nodes[f].list, OnPath(p, i)))];
        paths := paths[p := PathState(Asked(i), i + 1)];
      }
    }

    method StartFilter(t: Starter)
      requires Valid() && t in starts
      requires t.path < |c.filters| && t.at < |c.filters[t.path]| && c.filters[t.path][t.at] < |nodes| ==>
        OnPath(t.path, t.at) !in nodes[c.filters[t.path][t.at]].list.rechecks
      modifies `nodes, `starts
      ensures Valid() && View() == Step(c, old(View()), Action.StartFilter(t))
    {
      assert StarterAt(c, View(), t);
      ghost var next := Step(c, View(), Action.StartFilter(t));
      ApplyKeepsInv(c, View(), Action.StartFilter(t));
      var f := c.filters[t.path][t.at];
      starts := starts - {t};
      if nodes[f].phase.Idle? {
        nodes := nodes[f := nodes[f].(phase := Fetch(0, false), refs := 1)];
      }
      assert nodes == next.nodes;
    }

    /** filterFinished. */
    method PathFire(p: nat)
      requires Valid() && p < |paths| && paths[p].pc.Fired?
      modifies `paths
      ensures Valid() && View() == Step(c, old(View()), Action.PathFire(p))
      ensures var i, exc := old(paths)[p].pc.at, old(paths)[p].pc.exc;
        && i < |c.filters[p]|
        && paths[p].pc == if exc == None && !fatal && nodes[c.filters[p][i]].value != 0 && i + 1 < |c.filters[p]|
                          then Request(i + 1) else Stopping(exc)
    {
      assert PathAt(c, View(), p);
      ApplyKeepsInv(c, View(), Action.PathFire(p));
      var i, exc := paths[p].pc.at, paths[p].pc.exc;
      if exc == None && !fatal && nodes[c.filters[p][i]].value != 0 && i + 1 < |c.filters[p]| {
        paths := paths[p := paths[p].(pc := Request(i + 1))];
      } else {
        paths := paths[p := paths[p].(pc := Stopping(exc))];
      }
    }

    /** m_callback.doneWaiting: the exception, then the reference count. */
    method PathEnd(p: nat)
      requires Valid() && p < |paths| && paths[p].pc.Stopping?
      modifies `paths, `events
      ensures Valid() && View() == Step(c, old(View()), Action.PathEnd(p))
      ensures var e, exc := c.eventOf[p], old(paths)[p].pc.exc;
        && e < |events| && events[e].refs == old(events)[e].refs - 1 && paths[p].pc == Done(exc)
        && events[e].exc == (if old(events)[e].exc.Some? then old(events)[e].exc else exc)
        && (events[e].refs == 0 ==> events[e].pc.Scheduled?)
    {
      StoppingCounted(c, View(), p);
      ApplyKeepsInv(c, View(), Action.PathEnd(p));
      var e, exc := c.eventOf[p], paths[p].pc.exc;
      paths := paths[p := paths[p].(pc := Done(exc))];
      var x := events[e].(exc := FirstOf(events[e].exc, exc), refs := events[e].refs - 1, live := events[e].live - {p});
      events := events[e := if x.refs == 0 then x.(pc := Scheduled) else x];
    }

    /** AllPathsDoneTask::execute. */
    method EventFire(e: nat)
      requires Valid() && e < |events| && events[e].pc.Scheduled?
      modifies `events, `fatal
      ensures Valid() && View() == Step(c, old(View()), Action.EventFire(e))
      ensures events[e].pc.Finished? && events[e].exc == old(events)[e].exc
      ensures fatal <==> old(fatal) || events[e].exc.Some?
      ensures forall k | 0 <= k < |c.pathsOf[e]| :: paths[c.pathsOf[e][k]].pc.Done?
    {
      ApplyKeepsInv(c, View(), Action.EventFire(e));
      forall k | 0 <= k < |c.pathsOf[e]| ensures paths[c.pathsOf[e][k]].pc.Done? {
        assert CountAt(c, View(), e) && MemberAt(c, View(), e, k);
      }
      if events[e].exc.Some? {
        fatal := true;
      }
      events := events[e := events[e].(pc := Finished)];
    }
  }
}
