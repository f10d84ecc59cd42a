// Who started a module, and which threads may still be on their way to start a filter: the
// thread that launches the paths of an event is not one of them when it is done. Kept by
// every step.

module SchedulerStarters {
  import opened Basics
  import opened ModuleGraphs
  import opened Schedulers
  import opened SchedulerPrefetch
  import opened SchedulerPaths
  import opened SchedulerDemand

  /** A path asked for f, and the thread that did is past the exchange. */
  ghost predicate AskedFor(c: Config, s: State, q: nat, l: nat, f: nat)
    requires Valid(c) && Fits(c, s)
  {
    Requested(c, s, q, l) && c.filters[q][l] == f && Starter(q, l) !in s.starts
  }

  /** The thread that prefetches for a module is past the exchange for this getter. */
  predicate Past(x: NodeState, i: nat) {
    !x.phase.Idle? && (x.phase.Fetch? ==> i < x.phase.at)
  }

  /** A module gets f, and was past the exchange for it. */
  ghost predicate GotBy(c: Config, s: State, n: nat, i: nat, f: nat)
    requires Valid(c) && Fits(c, s)
  {
    n < |s.nodes| && i < |c.g.deps[n]| && c.g.deps[n][i] == f && Past(s.nodes[n], i)
  }

  ghost predicate HasOrigin(c: Config, s: State, f: nat)
    requires Valid(c) && Fits(c, s)
  {
    || (exists q: nat, l: nat :: AskedFor(c, s, q, l, f))
    || (exists n: nat, i: nat :: GotBy(c, s, n, i, f))
  }

  ghost predicate OriginAt(c: Config, s: State, f: nat)
    requires Valid(c) && Fits(c, s)
  {
    f < |s.nodes| && !s.nodes[f].phase.Idle? ==> HasOrigin(c, s, f)
  }

  /** The launching thread is back from every path but perhaps the last one it launched. */
  ghost predicate BackAt(c: Config, s: State, e: nat, k: nat)
    requires Valid(c) && Fits(c, s)
  {
    e < |s.events| && k < |c.pathsOf[e]| && (s.events[e].pc.Launch? ==> k + 1 < s.events[e].pc.at) ==>
      Back(s, c.pathsOf[e][k])
  }

  ghost predicate Starters(c: Config, s: State)
    requires Valid(c) && Fits(c, s)
  {
    && (forall f {:trigger OriginAt(c, s, f)} :: OriginAt(c, s, f))
    && (forall e, k {:trigger BackAt(c, s, e, k)} :: BackAt(c, s, e, k))
  }

  // ---------- origins ----------

  lemma OriginStays(c: Config, s: State, s': State, f: nat)
    requires Valid(c) && Fits(c, s) && Fits(c, s') && HasOrigin(c, s, f)
    requires forall p | 0 <= p < |s.paths| :: s.paths[p].asked <= s'.paths[p].asked
    requires forall n: nat, i: nat | n < |s.nodes| && Past(s.nodes[n], i) :: Past(s'.nodes[n], i)
    requires forall t | t in s'.starts && t !in s.starts :: !Requested(c, s, t.path, t.at)
    ensures HasOrigin(c, s', f)
  {
    if q: nat, l: nat :| AskedFor(c, s, q, l, f) {
      assert AskedFor(c, s', q, l, f);
    } else {
      var n: nat, i: nat :| GotBy(c, s, n, i, f);
      assert GotBy(c, s', n, i, f);
    }
  }

  /** Only g, if anything, starts in this step, and if so it has an origin. */
  lemma OriginsStay(c: Config, s: State, s': State, g: nat)
    requires Valid(c) && Fits(c, s) && Fits(c, s') && Starters(c, s)
    requires forall p | 0 <= p < |s.paths| :: s.paths[p].asked <= s'.paths[p].asked
    requires forall n: nat, i: nat | n < |s.nodes| && Past(s.nodes[n], i) :: Past(s'.nodes[n], i)
    requires forall n: nat | n < |s.nodes| && n != g :: !s'.nodes[n].phase.Idle? ==> !s.nodes[n].phase.Idle?
    requires forall t | t in s'.starts && t !in s.starts :: !Requested(c, s, t.path, t.at)
    requires OriginAt(c, s', g)
    ensures forall f {:trigger OriginAt(c, s', f)} :: OriginAt(c, s', f)
  {
    forall f ensures OriginAt(c, s', f) {
      if f != g {
        assert OriginAt(c, s, f);
        if HasOrigin(c, s, f) {
          OriginStays(c, s, s', f);
        }
      }
    }
  }

  lemma NoneStarts(c: Config, s: State, s': State)
    requires Valid(c) && Fits(c, s) && Fits(c, s') && Starters(c, s)
    requires forall p | 0 <= p < |s.paths| :: s.paths[p].asked <= s'.paths[p].asked
    requires forall n | 0 <= n < |s.nodes| :: !s'.nodes[n].phase.Idle? ==> !s.nodes[n].phase.Idle?
    requires forall n: nat, i: nat | n < |s.nodes| && Past(s.nodes[n], i) :: Past(s'.nodes[n], i)
    requires forall t | t in s'.starts && t !in s.starts :: !Requested(c, s, t.path, t.at)
    ensures forall f {:trigger OriginAt(c, s', f)} :: OriginAt(c, s', f)
  {
    OriginsStay(c, s, s', |s.nodes|);
  }

  lemma AskKeepsOrigins(c: Config, s: State, p: nat, late: bool)
    requires Valid(c) && Fits(c, s) && Paths(c, s) && Starters(c, s) && Enabled(c, s, PathAsk(p, late))
    ensures Fits(c, Apply(c, s, PathAsk(p, late)))
    ensures var s' := Apply(c, s, PathAsk(p, late)); forall f {:trigger OriginAt(c, s', f)} :: OriginAt(c, s', f)
  {
    ApplyFits(c, s, PathAsk(p, late));
    assert ProgressAt(c, s, p);
    NoneStarts(c, s, Apply(c, s, PathAsk(p, late)));
  }

  lemma FetchStartKeepsOrigins(c: Config, s: State, n: nat)
    requires Valid(c) && Fits(c, s) && Starters(c, s) && Enabled(c, s, FetchStart(n))
    ensures Fits(c, Apply(c, s, FetchStart(n)))
    ensures var s' := Apply(c, s, FetchStart(n)); forall f {:trigger OriginAt(c, s', f)} :: OriginAt(c, s', f)
  {
    ApplyFits(c, s, FetchStart(n));
    var s' := Apply(c, s, FetchStart(n));
    var i := s.nodes[n].phase.at;
    assert GotBy(c, s', n, i, c.g.deps[n][i]);
    OriginsStay(c, s, s', c.g.deps[n][i]);
  }

  lemma StartFilterKeepsOrigins(c: Config, s: State, t: Starter)
    requires Valid(c) && Fits(c, s) && Demand(c, s) && Starters(c, s) && Enabled(c, s, StartFilter(t))
    ensures Fits(c, Apply(c, s, StartFilter(t)))
    ensures var s' := Apply(c, s, StartFilter(t)); forall f {:trigger OriginAt(c, s', f)} :: OriginAt(c, s', f)
  {
    ApplyFits(c, s, StartFilter(t));
    var s' := Apply(c, s, StartFilter(t));
    assert StarterAt(c, s, t);
    assert AskedFor(c, s', t.path, t.at, c.filters[t.path][t.at]);
    OriginsStay(c, s, s', c.filters[t.path][t.at]);
  }

  // ---------- the launching thread ----------

  lemma BackStays(c: Config, s: State, s': State)
    requires Valid(c) && Fits(c, s) && Fits(c, s') && Starters(c, s) && s'.events == s.events
    requires forall p: nat | p < |s.paths| && Back(s, p) :: Back(s', p)
    ensures forall e, k {:trigger BackAt(c, s', e, k)} :: BackAt(c, s', e, k)
  {
    forall e: nat, k: nat ensures BackAt(c, s', e, k) {
      assert BackAt(c, s, e, k);
    }
  }

  lemma LaunchKeepsBack(c: Config, s: State, e: nat)
    requires Valid(c) && Fits(c, s) && Events(c, s) && Starters(c, s) && Enabled(c, s, LaunchPath(e))
    ensures Fits(c, DoLaunchPath(c, s, e))
    ensures var s' := DoLaunchPath(c, s, e); forall d, k {:trigger BackAt(c, s', d, k)} :: BackAt(c, s', d, k)
  {
    var s' := DoLaunchPath(c, s, e);
    var at := s.events[e].pc.at;
    assert MemberAt(c, s, e, at);
    forall d: nat, k: nat ensures BackAt(c, s', d, k) {
      assert BackAt(c, s, d, k) && MemberAt(c, s, d, k);
    }
  }

  lemma LaunchEndKeepsBack(c: Config, s: State, e: nat)
    requires Valid(c) && Fits(c, s) && Starters(c, s) && Enabled(c, s, LaunchEnd(e))
    ensures Fits(c, DoLaunchEnd(s, e))
    ensures var s' := DoLaunchEnd(s, e); forall d, k {:trigger BackAt(c, s', d, k)} :: BackAt(c, s', d, k)
  {
    var s' := DoLaunchEnd(s, e);
    forall d: nat, k: nat ensures BackAt(c, s', d, k) {
      assert BackAt(c, s, d, k);
    }
  }

  /** An event whose paths are all launched stays so. */
  lemma CallbackKeepsBack(c: Config, s: State, s': State)
    requires Valid(c) && Fits(c, s) && Fits(c, s') && Starters(c, s)
    requires forall e | 0 <= e < |s.events| ::
      s'.events[e].pc == s.events[e].pc || (!s.events[e].pc.Launch? && !s'.events[e].pc.Launch?)
    requires forall p: nat | p < |s.paths| && Back(s, p) :: Back(s', p)
    ensures forall e, k {:trigger BackAt(c, s', e, k)} :: BackAt(c, s', e, k)
  {
    forall e: nat, k: nat ensures BackAt(c, s', e, k) {
      assert BackAt(c, s, e, k);
    }
  }

  // ---------- all steps ----------

  lemma InitStarters(c: Config)
    requires Valid(c)
    ensures Starters(c, Init(c))
  {
  }

  lemma NodeKeepsStarters(c: Config, s: State, a: Action)
    requires Valid(c) && Fits(c, s) && Starters(c, s) && Enabled(c, s, a)
    requires a.FetchAdd? || a.FetchEnd? || a.Execute? || a.Take? || a.Recheck? || a.Look?
    ensures Fits(c, Apply(c, s, a)) && Starters(c, Apply(c, s, a))
  {
    ApplyFits(c, s, a);
    NoneStarts(c, s, Apply(c, s, a));
    BackStays(c, s, Apply(c, s, a));
  }

  lemma WorkKeepsStarters(c: Config, s: State, a: Action)
    requires Valid(c) && Fits(c, s) && Starters(c, s) && Enabled(c, s, a) && Sound(c, s, a)
    requires a.StartQueued? || a.Work? || a.Announce? || a.Leave?
    ensures Fits(c, Apply(c, s, a)) && Starters(c, Apply(c, s, a))
  {
    ApplyFits(c, s, a);
    NoneStarts(c, s, Apply(c, s, a));
    BackStays(c, s, Apply(c, s, a));
  }

  lemma ReleaseKeepsStarters(c: Config, s: State, a: Action)
    requires Valid(c) && Fits(c, s) && Starters(c, s) && Enabled(c, s, a) && Sound(c, s, a)
    requires a.Release? || a.PathRequest? || a.PathFire?
    ensures Fits(c, Apply(c, s, a)) && Starters(c, Apply(c, s, a))
  {
    ApplyFits(c, s, a);
    NoneStarts(c, s, Apply(c, s, a));
    BackStays(c, s, Apply(c, s, a));
  }

  lemma EndKeepsStarters(c: Config, s: State, a: Action)
    requires Valid(c) && Fits(c, s) && Starters(c, s) && Enabled(c, s, a) && (a.PathEnd? || a.EventFire?)
    requires a.PathEnd? ==> s.events[c.eventOf[a.path]].refs > 1 || !s.events[c.eventOf[a.path]].pc.Launch?
    ensures Fits(c, Apply(c, s, a)) && Starters(c, Apply(c, s, a))
  {
    ApplyFits(c, s, a);
    NoneStarts(c, s, Apply(c, s, a));
    CallbackKeepsBack(c, s, Apply(c, s, a));
  }

  lemma LaunchKeepsStarters(c: Config, s: State, a: Action)
    requires Valid(c) && Fits(c, s) && Events(c, s) && Starters(c, s) && Enabled(c, s, a)
    requires a.LaunchPath? || a.LaunchEnd?
    ensures Fits(c, Apply(c, s, a)) && Starters(c, Apply(c, s, a))
  {
    ApplyFits(c, s, a);
    NoneStarts(c, s, Apply(c, s, a));
    if a.LaunchPath? {
      LaunchKeepsBack(c, s, a.event);
    } else {
      LaunchEndKeepsBack(c, s, a.event);
    }
  }

  lemma AskKeepsStarters(c: Config, s: State, a: Action)
    requires Valid(c) && Fits(c, s) && Paths(c, s) && Demand(c, s) && Starters(c, s) && Enabled(c, s, a)
    requires a.FetchStart? || a.StartFilter? || a.PathAsk?
    ensures Fits(c, Apply(c, s, a)) && Starters(c, Apply(c, s, a))
  {
    ApplyFits(c, s, a);
    if a.FetchStart? {
      FetchStartKeepsOrigins(c, s, a.node);
    } else if a.StartFilter? {
      StartFilterKeepsOrigins(c, s, a.starter);
    } else {
      AskKeepsOrigins(c, s, a.path, a.late);
      assert ProgressAt(c, s, a.path);
    }
    BackStays(c, s, Apply(c, s, a));
  }

  lemma StepKeepsStarters(c: Config, s: State, a: Action)
    requires Valid(c) && Fits(c, s) && Enabled(c, s, a) && Sound(c, s, a)
    requires Paths(c, s) && Events(c, s) && Demand(c, s) && Starters(c, s)
    ensures Fits(c, Apply(c, s, a)) && Starters(c, Apply(c, s, a))
  {
    if a.FetchStart? || a.StartFilter? || a.PathAsk? {
      AskKeepsStarters(c, s, a);
    } else if a.LaunchPath? || a.LaunchEnd? {
      LaunchKeepsStarters(c, s, a);
    } else if a.Release? || a.PathRequest? || a.PathFire? {
      ReleaseKeepsStarters(c, s, a);
    } else if a.PathEnd? || a.EventFire? {
      if a.PathEnd? {
        StoppingCounted(c, s, a.path);
        assert |s.events[c.eventOf[a.path]].live| > 0;
      }
      EndKeepsStarters(c, s, a);
    } else if a.StartQueued? || a.Work? || a.Announce? || a.Leave? {
      WorkKeepsStarters(c, s, a);
    } else {
      NodeKeepsStarters(c, s, a);
    }
  }
}
