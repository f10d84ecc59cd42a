// The paths of filters and the events they belong to: a path goes on exactly as far as the
// evaluation keeps the event, and the all-paths-done task counts the paths under way. Kept
// by every step.

module SchedulerPaths {
  import opened Basics
  import opened ModuleGraphs
  import opened Schedulers
  import opened SchedulerPrefetch
  import opened SchedulerValues
  import WL = WaitLists

  // ---------- paths ----------

  /** The filters before k are done and kept the event. */
  ghost predicate Passed(c: Config, s: State, p: nat, k: nat)
    requires Valid(c) && Fits(c, s) && p < |c.filters|
  {
    && k <= |c.filters[p]|
    && KeptUpTo(c.g, c.filters[p], k)
    && forall j | 0 <= j < k :: s.nodes[c.filters[p][j]].list.closed
  }

  /** The filter at k is done, with this exception. */
  ghost predicate DoneWith(c: Config, s: State, p: nat, k: nat, exc: Option<Exc>)
    requires Valid(c) && Fits(c, s) && p < |c.filters|
  {
    && k < |c.filters[p]|
    && s.nodes[c.filters[p][k]].list.closed
    && (if exc == None then Eval(c.g, c.filters[p][k]).Ok?
        else Eval(c.g, c.filters[p][k]).Failed? && exc.value in Culprits(c.g, c.filters[p][k]))
  }

  /** A path that stopped after asking for the first `asked` filters. Without a fatal error
      elsewhere it has come as far as the sequential path. */
  ghost predicate Stopped(c: Config, s: State, p: nat, asked: nat, exc: Option<Exc>)
    requires Valid(c) && Fits(c, s) && p < |c.filters|
  {
    && asked <= |c.filters[p]|
    && (asked > 0 ==> Passed(c, s, p, asked - 1) && DoneWith(c, s, p, asked - 1, exc))
    && (asked == 0 ==> exc == None)
    && (asked == Visited(c.g, c.filters[p], 0) || (s.fatal && exc == None))
  }

  ghost predicate Progress(c: Config, s: State, p: nat, x: PathState)
    requires Valid(c) && Fits(c, s) && p < |c.filters|
  {
    match x.pc
    case Dormant => x.asked == 0
    case Request(i) => x.asked == i && i < |c.filters[p]| && Passed(c, s, p, i)
    case Ask(i) => x.asked == i && i < |c.filters[p]| && Passed(c, s, p, i)
    case Asked(i) => x.asked == i + 1 && i < |c.filters[p]| && Passed(c, s, p, i)
    case Fired(i, exc) => x.asked == i + 1 && Passed(c, s, p, i) && DoneWith(c, s, p, i, exc)
    case Stopping(exc) => Stopped(c, s, p, x.asked, exc)
    case Done(exc) => Stopped(c, s, p, x.asked, exc)
  }

  ghost predicate ProgressAt(c: Config, s: State, p: nat)
    requires Valid(c) && Fits(c, s)
  {
    p < |s.paths| ==> Progress(c, s, p, s.paths[p])
  }

  ghost predicate Paths(c: Config, s: State)
    requires Valid(c) && Fits(c, s)
  {
    forall p {:trigger ProgressAt(c, s, p)} :: ProgressAt(c, s, p)
  }

  /** Lists only close and the fatal error flag only rises. */
  predicate Onward(s: State, s': State) {
    && |s'.nodes| == |s.nodes|
    && (forall n | 0 <= n < |s.nodes| :: s.nodes[n].list.closed ==> s'.nodes[n].list.closed)
    && (s.fatal ==> s'.fatal)
  }

  lemma OthersProgress(c: Config, s: State, s': State, p: nat)
    requires Valid(c) && Fits(c, s) && Fits(c, s') && Onward(s, s') && ProgressAt(c, s, p)
    requires p < |s.paths| ==> s'.paths[p] == s.paths[p]
    ensures ProgressAt(c, s', p)
  {
  }

  /** The path q moves, all others stay. */
  lemma PathMoves(c: Config, s: State, s': State, q: nat)
    requires Valid(c) && Fits(c, s) && Fits(c, s') && Onward(s, s') && Paths(c, s)
    requires q < |s.paths| && s'.paths == s.paths[q := s'.paths[q]] && ProgressAt(c, s', q)
    ensures Paths(c, s')
  {
    forall p ensures ProgressAt(c, s', p) {
      if p != q {
        assert ProgressAt(c, s, p);
        OthersProgress(c, s, s', p);
      }
    }
  }

  lemma PathsStay(c: Config, s: State, s': State)
    requires Valid(c) && Fits(c, s) && Fits(c, s') && Onward(s, s') && Paths(c, s) && s'.paths == s.paths
    ensures Paths(c, s')
  {
    forall p ensures ProgressAt(c, s', p) {
      assert ProgressAt(c, s, p);
      OthersProgress(c, s, s', p);
    }
  }

  /** A list that is closed tells a path the evaluation's outcome for its filter. */
  lemma ListTells(c: Config, s: State, p: nat, k: nat)
    requires Valid(c) && Fits(c, s) && Values(c, s) && p < |c.filters| && k < |c.filters[p]|
    requires s.nodes[c.filters[p][k]].list.closed
    ensures DoneWith(c, s, p, k, s.nodes[c.filters[p][k]].list.exc)
  {
    assert MeaningAt(c, s, c.filters[p][k]);
  }

  lemma AskKeepsPaths(c: Config, s: State, p: nat, late: bool)
    requires Valid(c) && Fits(c, s) && Values(c, s) && Paths(c, s) && Enabled(c, s, PathAsk(p, late))
    ensures Paths(c, Apply(c, s, PathAsk(p, late)))
  {
    var s' := Apply(c, s, PathAsk(p, late));
    assert ProgressAt(c, s, p);
    if s.nodes[c.filters[p][s.paths[p].pc.at]].list.closed {
      ListTells(c, s, p, s.paths[p].pc.at);
    }
    PathMoves(c, s, s', p);
  }

  lemma ReleaseKeepsPaths(c: Config, s: State, d: nat, p: nat, k: nat, reader: bool)
    requires Valid(c) && Fits(c, s) && Prefetch(c, s) && Values(c, s) && Paths(c, s)
    requires Enabled(c, s, Release(d, OnPath(p, k), reader)) && s.nodes[d].list.closed
    ensures Paths(c, DoRelease(s, d, OnPath(p, k), reader))
  {
    assert WaiterAt(c, s, d, OnPath(p, k)) && ProgressAt(c, s, p);
    ListTells(c, s, p, s.paths[p].pc.at);
    PathMoves(c, s, DoRelease(s, d, OnPath(p, k), reader), p);
  }

  lemma FireKeepsPaths(c: Config, s: State, p: nat)
    requires Valid(c) && Fits(c, s) && Values(c, s) && Paths(c, s) && Enabled(c, s, PathFire(p))
    ensures Paths(c, Apply(c, s, PathFire(p)))
  {
    var s' := Apply(c, s, PathFire(p));
    var fs, i := c.filters[p], s.paths[p].pc.at;
    assert ProgressAt(c, s, p) && MeaningAt(c, s, fs[i]);
    if !Keeps(c.g, fs[i]) || i + 1 == |fs| {
      VisitedIs(c.g, fs, 0, i + 1);
    }
    PathMoves(c, s, s', p);
  }

  lemma RequestKeepsPaths(c: Config, s: State, p: nat)
    requires Valid(c) && Fits(c, s) && Paths(c, s) && Enabled(c, s, PathRequest(p))
    ensures Paths(c, DoPathRequest(s, p))
  {
    assert ProgressAt(c, s, p);
    PathMoves(c, s, DoPathRequest(s, p), p);
  }

  lemma LaunchKeepsPaths(c: Config, s: State, e: nat)
    requires Valid(c) && Fits(c, s) && Paths(c, s) && Enabled(c, s, LaunchPath(e))
    requires s.paths[c.pathsOf[e][s.events[e].pc.at]].pc.Dormant?
    ensures Paths(c, DoLaunchPath(c, s, e))
  {
    var p := c.pathsOf[e][s.events[e].pc.at];
    assert ProgressAt(c, s, p);
    PathMoves(c, s, DoLaunchPath(c, s, e), p);
  }

  lemma EndKeepsPaths(c: Config, s: State, p: nat)
    requires Valid(c) && Fits(c, s) && Paths(c, s) && Enabled(c, s, PathEnd(p))
    ensures Paths(c, Apply(c, s, PathEnd(p)))
  {
    assert ProgressAt(c, s, p);
    PathMoves(c, s, Apply(c, s, PathEnd(p)), p);
  }

  /** Modules, queues and events go on without the paths. */
  lemma FetchingKeepsPaths(c: Config, s: State, a: Action)
    requires Valid(c) && Fits(c, s) && Paths(c, s) && Enabled(c, s, a)
    requires a.FetchAdd? || a.FetchStart? || a.FetchEnd? || a.StartFilter? || (a.Release? && !a.waiter.OnPath?)
    ensures Fits(c, Apply(c, s, a)) && Paths(c, Apply(c, s, a))
  {
    ApplyFits(c, s, a);
    PathsStay(c, s, Apply(c, s, a));
  }

  lemma WorkingKeepsPaths(c: Config, s: State, a: Action)
    requires Valid(c) && Fits(c, s) && Paths(c, s) && Enabled(c, s, a)
    requires a.Execute? || a.StartQueued? || a.Work? || a.Announce? || a.Leave? || a.Take? || a.Recheck? || a.Look?
          || a.LaunchEnd? || a.EventFire?
    ensures Fits(c, Apply(c, s, a)) && Paths(c, Apply(c, s, a))
  {
    ApplyFits(c, s, a);
    PathsStay(c, s, Apply(c, s, a));
  }

  /** A path's own step. */
  lemma PathKeepsPaths(c: Config, s: State, a: Action)
    requires Valid(c) && Fits(c, s) && Prefetch(c, s) && Values(c, s) && Paths(c, s) && Enabled(c, s, a)
    requires a.PathAsk? || a.PathFire? || a.PathRequest? || a.PathEnd?
    ensures Fits(c, Apply(c, s, a)) && Paths(c, Apply(c, s, a))
  {
    match a
    case PathAsk(p, late) => AskKeepsPaths(c, s, p, late);
    case PathFire(p) => FireKeepsPaths(c, s, p);
    case PathRequest(p) => RequestKeepsPaths(c, s, p);
    case PathEnd(p) => EndKeepsPaths(c, s, p);
  }

  lemma StepKeepsPaths(c: Config, s: State, a: Action)
    requires Valid(c) && Fits(c, s) && Prefetch(c, s) && Values(c, s) && Paths(c, s) && Enabled(c, s, a)
    requires a.LaunchPath? ==> s.paths[c.pathsOf[a.event][s.events[a.event].pc.at]].pc.Dormant?
    requires a.Release? ==> s.nodes[a.node].list.closed
    ensures Fits(c, Apply(c, s, a)) && Paths(c, Apply(c, s, a))
  {
    if a.PathAsk? || a.PathFire? || a.PathRequest? || a.PathEnd? {
      PathKeepsPaths(c, s, a);
    } else if a.Release? && a.waiter.OnPath? {
      ReleaseKeepsPaths(c, s, a.node, a.waiter.path, a.waiter.at, a.reader);
    } else if a.LaunchPath? {
      LaunchKeepsPaths(c, s, a.event);
    } else if a.FetchAdd? || a.FetchStart? || a.FetchEnd? || a.StartFilter? || a.Release? {
      FetchingKeepsPaths(c, s, a);
    } else {
      WorkingKeepsPaths(c, s, a);
    }
  }

  // ---------- events ----------

  /** How many paths of the event have been started. */
  function Begun(c: Config, e: nat, x: EventState): nat
    requires e < |c.pathsOf|
  {
    if x.pc.Launch? then x.pc.at else |c.pathsOf[e]|
  }

  /** The count of the all-paths-done task is the paths under way, plus the holder of
      processAsync. */
  ghost predicate Counted(c: Config, e: nat, x: EventState)
    requires e < |c.pathsOf|
  {
    && x.refs == |x.live| + (if x.pc.Launch? then 1 else 0)
    && Begun(c, e, x) <= |c.pathsOf[e]|
    && (x.live == {} <==> x.refs == (if x.pc.Launch? then 1 else 0))
    && (x.pc.Launched? ==> x.live != {})
    && (x.pc.Scheduled? || x.pc.Finished? ==> x.live == {})
  }

  ghost predicate CountAt(c: Config, s: State, e: nat)
    requires Valid(c) && Fits(c, s)
  {
    e < |s.events| ==> Counted(c, e, s.events[e])
  }

  /** The k-th path of an event is under way exactly when it holds the all-paths-done task,
      and it hands on its exception when it ends. */
  predicate Member(x: EventState, begun: bool, p: nat, y: PathState) {
    if begun
    then !y.pc.Dormant? && (p in x.live <==> !y.pc.Done?) && (y.pc.Done? && y.pc.exc.Some? ==> x.exc.Some?)
    else y.pc.Dormant? && p !in x.live
  }

  ghost predicate MemberAt(c: Config, s: State, e: nat, k: nat)
    requires Valid(c) && Fits(c, s)
  {
    e < |s.events| && k < |c.pathsOf[e]| ==>
      Member(s.events[e], k < Begun(c, e, s.events[e]), c.pathsOf[e][k], s.paths[c.pathsOf[e][k]])
  }

  /** Only an event's own paths hold its task. */
  ghost predicate OwnAt(c: Config, s: State, e: nat, p: nat)
    requires Valid(c) && Fits(c, s)
  {
    e < |s.events| && p in s.events[e].live ==> p < |c.eventOf| && c.eventOf[p] == e
  }

  /** An event's exception came from one of its paths. */
  ghost predicate BlameAt(c: Config, s: State, e: nat)
    requires Valid(c) && Fits(c, s)
  {
    e < |s.events| && s.events[e].exc.Some? ==>
      exists k :: 0 <= k < |c.pathsOf[e]| && s.paths[c.pathsOf[e][k]].pc == Done(s.events[e].exc)
  }

  /** The fatal error flag is the events that finished with an exception. */
  ghost predicate Fatal(s: State) {
    s.fatal <==> exists e :: 0 <= e < |s.events| && s.events[e].pc.Finished? && s.events[e].exc.Some?
  }

  ghost predicate Events(c: Config, s: State)
    requires Valid(c) && Fits(c, s)
  {
    && (forall e {:trigger CountAt(c, s, e)} :: CountAt(c, s, e))
    && (forall e, k {:trigger MemberAt(c, s, e, k)} :: MemberAt(c, s, e, k))
    && (forall e, p {:trigger OwnAt(c, s, e, p)} :: OwnAt(c, s, e, p))
    && (forall e {:trigger BlameAt(c, s, e)} :: BlameAt(c, s, e))
    && Fatal(s)
  }

  /** Paths move while they are under way, events stay. */
  lemma EventsStay(c: Config, s: State, s': State)
    requires Valid(c) && Fits(c, s) && Fits(c, s') && Events(c, s)
    requires s'.events == s.events && s'.fatal == s.fatal
    requires forall p | 0 <= p < |s.paths| ::
      || s'.paths[p] == s.paths[p]
      || !(s.paths[p].pc.Dormant? || s.paths[p].pc.Done? || s'.paths[p].pc.Dormant? || s'.paths[p].pc.Done?)
    ensures Events(c, s')
  {
    forall e ensures CountAt(c, s', e) {
      assert CountAt(c, s, e);
    }
    forall e, k ensures MemberAt(c, s', e, k) {
      assert MemberAt(c, s, e, k);
    }
    forall e, p ensures OwnAt(c, s', e, p) {
      assert OwnAt(c, s, e, p);
    }
    forall e ensures BlameAt(c, s', e) {
      BlameStays(c, s, s', e);
    }
  }

  /** A path that is done stays so. */
  lemma BlameStays(c: Config, s: State, s': State, e: nat)
    requires Valid(c) && Fits(c, s) && Fits(c, s') && BlameAt(c, s, e)
    requires e < |s.events| ==> s'.events[e].exc == s.events[e].exc
    requires forall p | 0 <= p < |s.paths| :: s.paths[p].pc.Done? ==> s'.paths[p].pc == s.paths[p].pc
    ensures BlameAt(c, s', e)
  {
    if e < |s.events| && s.events[e].exc.Some? {
      var k :| 0 <= k < |c.pathsOf[e]| && s.paths[c.pathsOf[e][k]].pc == Done(s.events[e].exc);
      assert s'.paths[c.pathsOf[e][k]].pc == Done(s'.events[e].exc);
    }
  }

  lemma LaunchKeepsEvents(c: Config, s: State, e: nat)
    requires Valid(c) && Fits(c, s) && Events(c, s) && Enabled(c, s, LaunchPath(e))
    ensures Events(c, DoLaunchPath(c, s, e))
  {
    var s' := DoLaunchPath(c, s, e);
    var at := s.events[e].pc.at;
    var p := c.pathsOf[e][at];
    assert CountAt(c, s, e) && MemberAt(c, s, e, at);
    forall d ensures CountAt(c, s', d) {
      assert CountAt(c, s, d);
    }
    forall d, k ensures MemberAt(c, s', d, k) {
      assert MemberAt(c, s, d, k);
    }
    forall d, q ensures OwnAt(c, s', d, q) {
      assert OwnAt(c, s, d, q);
    }
    forall d ensures BlameAt(c, s', d) {
      BlameStays(c, s, s', d);
    }
    FatalStays(s, s');
  }

  lemma FatalStays(s: State, s': State)
    requires Fatal(s) && s'.fatal == s.fatal && |s'.events| == |s.events|
    requires forall e | 0 <= e < |s.events| ::
      && (s'.events[e].pc.Finished? <==> s.events[e].pc.Finished?)
      && (s.events[e].pc.Finished? ==> s'.events[e].exc == s.events[e].exc)
    ensures Fatal(s')
  {
    if s.fatal {
      var e :| 0 <= e < |s.events| && s.events[e].pc.Finished? && s.events[e].exc.Some?;
      assert s'.events[e].exc.Some?;
    }
  }

  lemma LaunchEndKeepsEvents(c: Config, s: State, e: nat)
    requires Valid(c) && Fits(c, s) && Events(c, s) && Enabled(c, s, LaunchEnd(e))
    ensures Events(c, DoLaunchEnd(s, e))
  {
    var s' := DoLaunchEnd(s, e);
    forall d ensures CountAt(c, s', d) {
      assert CountAt(c, s, d);
    }
    forall d, k ensures MemberAt(c, s', d, k) {
      assert MemberAt(c, s, d, k);
    }
    forall d, q ensures OwnAt(c, s', d, q) {
      assert OwnAt(c, s, d, q);
    }
    forall d ensures BlameAt(c, s', d) {
      BlameStays(c, s, s', d);
    }
    FatalStays(s, s');
  }

  /** Which path of its event a path is. */
  ghost function Place(c: Config, p: nat): (k: nat)
    requires Valid(c) && p < |c.eventOf|
    ensures k < |c.pathsOf[c.eventOf[p]]| && c.pathsOf[c.eventOf[p]][k] == p
  {
    var k :| 0 <= k < |c.pathsOf[c.eventOf[p]]| && c.pathsOf[c.eventOf[p]][k] == p;
    k
  }

  /** A path under way is counted. */
  lemma StoppingCounted(c: Config, s: State, p: nat)
    requires Valid(c) && Fits(c, s) && Events(c, s) && p < |s.paths|
    requires !s.paths[p].pc.Dormant? && !s.paths[p].pc.Done?
    ensures p in s.events[c.eventOf[p]].live && s.events[c.eventOf[p]].refs > 0
    ensures s.events[c.eventOf[p]].pc.Launch? || s.events[c.eventOf[p]].pc.Launched?
    ensures Counted(c, c.eventOf[p], s.events[c.eventOf[p]])
  {
    assert MemberAt(c, s, c.eventOf[p], Place(c, p)) && CountAt(c, s, c.eventOf[p]);
  }

  lemma EndKeepsEvents(c: Config, s: State, p: nat)
    requires Valid(c) && Fits(c, s) && Events(c, s) && Enabled(c, s, PathEnd(p))
    ensures Events(c, Apply(c, s, PathEnd(p)))
  {
    var s' := Apply(c, s, PathEnd(p));
    var e := c.eventOf[p];
    StoppingCounted(c, s, p);
    forall d ensures CountAt(c, s', d) {
      assert CountAt(c, s, d);
    }
    forall d, k ensures MemberAt(c, s', d, k) {
      assert MemberAt(c, s, d, k);
    }
    forall d, q ensures OwnAt(c, s', d, q) {
      assert OwnAt(c, s, d, q);
    }
    forall d ensures BlameAt(c, s', d) {
      if d == e && s.events[e].exc == None {
        assert s'.paths[c.pathsOf[e][Place(c, p)]].pc == Done(s.paths[p].pc.exc);
      } else {
        BlameStays(c, s, s', d);
      }
    }
    FatalStays(s, s');
  }

  lemma FireKeepsEvents(c: Config, s: State, e: nat)
    requires Valid(c) && Fits(c, s) && Events(c, s) && Enabled(c, s, EventFire(e))
    ensures Events(c, DoEventFire(s, e))
  {
    var s' := DoEventFire(s, e);
    forall d ensures CountAt(c, s', d) {
      assert CountAt(c, s, d);
    }
    forall d, k ensures MemberAt(c, s', d, k) {
      assert MemberAt(c, s, d, k);
    }
    forall d, q ensures OwnAt(c, s', d, q) {
      assert OwnAt(c, s, d, q);
    }
    forall d ensures BlameAt(c, s', d) {
      BlameStays(c, s, s', d);
    }
    if s.fatal {
      var d :| 0 <= d < |s.events| && s.events[d].pc.Finished? && s.events[d].exc.Some?;
      assert s'.events[d].pc.Finished? && s'.events[d].exc.Some?;
    } else if s.events[e].exc.Some? {
      assert s'.events[e].pc.Finished? && s'.events[e].exc.Some?;
    }
  }

  lemma InitPaths(c: Config)
    requires Valid(c)
    ensures Paths(c, Init(c)) && Events(c, Init(c))
  {
    forall e, k ensures MemberAt(c, Init(c), e, k) {
    }
    forall p ensures ProgressAt(c, Init(c), p) {
    }
  }

  lemma StepKeepsEvents(c: Config, s: State, a: Action)
    requires Valid(c) && Fits(c, s) && Events(c, s) && Enabled(c, s, a)
    ensures Fits(c, Apply(c, s, a)) && Events(c, Apply(c, s, a))
  {
    ApplyFits(c, s, a);
    if a.LaunchPath? {
      LaunchKeepsEvents(c, s, a.event);
    } else if a.LaunchEnd? {
      LaunchEndKeepsEvents(c, s, a.event);
    } else if a.PathEnd? {
      EndKeepsEvents(c, s, a.path);
    } else if a.EventFire? {
      FireKeepsEvents(c, s, a.event);
    } else {
      EventsStay(c, s, Apply(c, s, a));
    }
  }

  /** The path that an event is about to start has not been started. */
  lemma NextDormant(c: Config, s: State, e: nat)
    requires Valid(c) && Fits(c, s) && Events(c, s) && Enabled(c, s, LaunchPath(e))
    ensures s.paths[c.pathsOf[e][s.events[e].pc.at]].pc.Dormant?
  {
    assert MemberAt(c, s, e, s.events[e].pc.at);
  }
}
