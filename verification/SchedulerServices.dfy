// The scheduler uses its wait lists and serial queues only as their atomic specifications
// allow. The lock-free list refines its specification and all its calls end, so that it may
// take its place. For the queue the specification is about safety only: what becomes of
// progress over the real queues is in SchedulerOverQueues.dfy.

module SchedulerServices {
  import opened Basics
  import opened ModuleGraphs
  import opened Schedulers
  import opened SchedulerPrefetch
  import opened SchedulerPaths
  import opened SchedulerLists
  import opened SchedulerProgress
  import opened SchedulerReuse
  import opened SchedulerReset
  import WL = WaitLists

  /** What a step does on behalf of the list of d: it is closed, with the exception that the module
      ended with, or somebody is let go, a waiter of it or one that found it closed when it wanted
      to join. */
  ghost function EffectOn(c: Config, s: State, a: Action, d: nat): WL.Effect<Waiter>
    requires Valid(c) && Fits(c, s) && Enabled(c, s, a) && d < |s.nodes|
  {
    var l := s.nodes[d].list;
    if a.Announce? && a.node == d then WL.Closed(s.nodes[d].phase.exc)
    else if a.Release? && a.node == d then WL.LetGo(a.waiter, l.exc)
    else if a.FetchAdd? && Dep(c, a.node, s.nodes[a.node].phase.at) == d && l.closed && !a.late
    then WL.LetGo(Getter(a.node, s.nodes[a.node].phase.at), l.exc)
    else if a.PathAsk? && c.filters[a.path][s.paths[a.path].pc.at] == d && l.closed && !a.late
    then WL.LetGo(OnPath(a.path, s.paths[a.path].pc.at), l.exc)
    else WL.Silent
  }

  ghost predicate ListStep(c: Config, s: State, a: Action, d: nat)
    requires Valid(c) && Fits(c, s) && Enabled(c, s, a) && d < |s.nodes|
  {
    && |Apply(c, s, a).nodes| == |s.nodes|
    && WL.Next(s.nodes[d].list, Apply(c, s, a).nodes[d].list, EffectOn(c, s, a, d))
  }

  lemma AddUsesList(c: Config, s: State, n: nat, late: bool, d: nat)
    requires Valid(c) && Fits(c, s) && Prefetch(c, s) && Lists(c, s) && Enabled(c, s, FetchAdd(n, late)) && d < |s.nodes|
    ensures ListStep(c, s, FetchAdd(n, late), d)
  {
    var i := s.nodes[n].phase.at;
    assert NodeAt(c, s, n) && WaiterAt(c, s, d, Getter(n, i)) && JoinedAt(c, s, d, Getter(n, i)) && Dep(c, n, i) != n;
    if d == Dep(c, n, i) && (!s.nodes[d].list.closed || late) {
      assert Apply(c, s, FetchAdd(n, late)).nodes[d].list == WL.Join(s.nodes[d].list, Getter(n, i));
    }
  }

  lemma AskUsesList(c: Config, s: State, p: nat, late: bool, d: nat)
    requires Valid(c) && Fits(c, s) && Prefetch(c, s) && Lists(c, s) && Enabled(c, s, PathAsk(p, late)) && d < |s.nodes|
    requires s.paths[p].asked == s.paths[p].pc.at
    ensures ListStep(c, s, PathAsk(p, late), d)
  {
    var w := OnPath(p, s.paths[p].pc.at);
    assert WaiterAt(c, s, d, w) && JoinedAt(c, s, d, w);
    if d == c.filters[p][s.paths[p].pc.at] && (!s.nodes[d].list.closed || late) {
      assert Apply(c, s, PathAsk(p, late)).nodes[d].list == WL.Join(s.nodes[d].list, w);
    }
  }

  lemma CloseUsesList(c: Config, s: State, n: nat, d: nat)
    requires Valid(c) && Fits(c, s) && Prefetch(c, s) && Enabled(c, s, Announce(n)) && d < |s.nodes|
    ensures ListStep(c, s, Announce(n), d)
  {
    assert NodeAt(c, s, n);
    if d == n {
      assert Apply(c, s, Announce(n)).nodes[d].list == WL.Close(s.nodes[d].list, s.nodes[n].phase.exc);
    }
  }

  lemma ReleaseUsesList(c: Config, s: State, n: nat, w: Waiter, reader: bool, d: nat)
    requires Valid(c) && Fits(c, s) && Lists(c, s) && Enabled(c, s, Release(n, w, reader)) && d < |s.nodes|
    ensures ListStep(c, s, Release(n, w, reader), d)
  {
    if d == n {
      TakenIsClosed(c, s, n, w);
      assert Apply(c, s, Release(n, w, reader)).nodes[d].list == WL.Leave(s.nodes[d].list, w, reader);
    }
  }

  lemma InsideUsesList(c: Config, s: State, a: Action, d: nat)
    requires Valid(c) && Fits(c, s) && Enabled(c, s, a) && d < |s.nodes| && (a.Take? || a.Recheck? || a.Look?)
    ensures ListStep(c, s, a, d)
  {
    ApplyFits(c, s, a);
    if a.node == d {
      match a
      case Take(_) => assert Apply(c, s, a).nodes[d].list == WL.Take(s.nodes[d].list);
      case Recheck(_, w) => assert Apply(c, s, a).nodes[d].list == WL.Recheck(s.nodes[d].list, w);
      case Look(_) => assert Apply(c, s, a).nodes[d].list == WL.Look(s.nodes[d].list);
    }
  }

  lemma NodeLeavesLists(c: Config, s: State, a: Action, d: nat)
    requires Valid(c) && Fits(c, s) && Enabled(c, s, a) && d < |s.nodes|
    requires a.FetchStart? || a.FetchEnd? || a.Execute? || a.StartQueued? || a.Work? || a.Leave?
    ensures |Apply(c, s, a).nodes| == |s.nodes| && Apply(c, s, a).nodes[d].list == s.nodes[d].list
  {
  }

  lemma PathLeavesLists(c: Config, s: State, a: Action, d: nat)
    requires Valid(c) && Fits(c, s) && Enabled(c, s, a) && d < |s.nodes|
    requires a.LaunchPath? || a.LaunchEnd? || a.PathRequest? || a.StartFilter?
          || a.PathFire? || a.PathEnd? || a.EventFire?
    ensures |Apply(c, s, a).nodes| == |s.nodes| && Apply(c, s, a).nodes[d].list == s.nodes[d].list
  {
  }

  /** Every step of the scheduler is, for every wait list, a step of the atomic list. */
  lemma ListsAreAtomic(c: Config, s: State, a: Action, d: nat)
    requires Valid(c) && Fits(c, s) && Inv(c, s) && Enabled(c, s, a) && d < |s.nodes|
    ensures ListStep(c, s, a, d)
  {
    if a.FetchAdd? {
      AddUsesList(c, s, a.node, a.late, d);
    } else if a.PathAsk? {
      assert PathAt(c, s, a.path) && ProgressAt(c, s, a.path);
      AskUsesList(c, s, a.path, a.late, d);
    } else if a.Announce? {
      CloseUsesList(c, s, a.node, d);
    } else if a.Release? {
      ReleaseUsesList(c, s, a.node, a.waiter, a.reader, d);
    } else if a.Take? || a.Recheck? || a.Look? {
      InsideUsesList(c, s, a, d);
    } else if a.FetchStart? || a.FetchEnd? || a.Execute? || a.StartQueued? || a.Work? || a.Leave? {
      NodeLeavesLists(c, s, a, d);
    } else {
      PathLeavesLists(c, s, a, d);
    }
  }

  /** So is a stream that goes on to its next event, when no late thread is left: each of its
      lists is reset as the code's reset may be, the others are left alone. */
  lemma ResetIsAtomic(c: Config, s: State, e: nat, d: nat)
    requires Valid(c) && Fits(c, s) && Inv(c, s) && Called(c, s, e) && d < |s.nodes|
    requires NoStraggler(c, s, e) && NoLateCloser(c, s, e)
    ensures var l, l' := s.nodes[d].list, ResetEvent(c, s, e).nodes[d].list;
      if Owns(c, e, d) then WL.Next(l, l', WL.Reopened) && l.rechecks == {} else l' == l
  {
    if Owns(c, e, d) {
      assert ListAt(c, s, d);
      forall w ensures w !in s.nodes[d].list.waiting && w !in s.nodes[d].list.rechecks {
        NobodyWaitsFor(c, s, e, d, w);
        NobodyInside(c, s, e, d, w);
      }
    }
  }
}
