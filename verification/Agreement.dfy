// The two frameworks side by side: what the single-threaded one leaves behind for each event
// is what every interleaving of the concurrent one leaves behind.

module Agreement {
  import opened Basics
  import opened ModuleGraphs
  import opened Schedulers
  import opened SchedulerProgress
  import opened SchedulerReuse
  import opened SchedulerNextEvent
  import opened SchedulerTheorems
  import SP = SchedulerPaths
  import ST = SingleThreaded

  /** The filters of the paths of an event, as its schedule lists them. */
  function PathsOf(c: Config, e: nat): (paths: seq<seq<nat>>)
    requires Schedulers.Valid(c) && e < |c.pathsOf|
    ensures |paths| == |c.pathsOf[e]|
    ensures forall k | 0 <= k < |paths| :: paths[k] == c.filters[c.pathsOf[e][k]]
    ensures ST.AllFilters(c.g, paths)
  {
    seq(|c.pathsOf[e]|, k requires 0 <= k < |c.pathsOf[e]| => c.filters[c.pathsOf[e][k]])
  }

  /** What the processing of event e runs. */
  ghost function Runs(c: Config, e: nat): set<nat>
    requires Schedulers.Valid(c) && e < |c.pathsOf|
  {
    ST.ScheduleNeeds(c.g, PathsOf(c, e), |PathsOf(c, e)|)
  }

  lemma RunsAreWanted(c: Config, e: nat, n: nat)
    requires Schedulers.Valid(c) && e < |c.pathsOf| && n in Runs(c, e)
    ensures SequentiallyWanted(c, n)
  {
    var paths := PathsOf(c, e);
    ST.ScheduleNeedsAre(c.g, paths, |paths|, n);
    var k: nat, j: nat :| k < |paths| && ST.Visits(c.g, paths, k, j) && n in Needs(c.g, paths[k][j]);
    assert InSequence(c, c.pathsOf[e][k], j);
  }

  lemma WantedAreRun(c: Config, n: nat)
    requires Schedulers.Valid(c) && SequentiallyWanted(c, n)
    ensures exists e: nat :: e < |c.pathsOf| && n in Runs(c, e)
  {
    var p: nat, j: nat :| InSequence(c, p, j) && n in Needs(c.g, c.filters[p][j]);
    RunsHas(c, c.eventOf[p], SP.Place(c, p), j, n);
  }

  lemma RunsHas(c: Config, e: nat, k: nat, j: nat, n: nat)
    requires Schedulers.Valid(c) && e < |c.pathsOf| && k < |c.pathsOf[e]|
    requires InSequence(c, c.pathsOf[e][k], j) && n in Needs(c.g, c.filters[c.pathsOf[e][k]][j])
    ensures n in Runs(c, e)
  {
    var paths := PathsOf(c, e);
    assert ST.Visits(c.g, paths, k, j) && n in Needs(c.g, paths[k][j]);
    ST.ScheduleNeedsAre(c.g, paths, |paths|, n);
  }

  /** The state that SingleThreaded.Modules.Process leaves when it processes event e. */
  ghost predicate Processed(c: Config, e: nat, wasRun: seq<bool>, value: seq<int>)
    requires Schedulers.Valid(c) && e < |c.pathsOf|
  {
    && |wasRun| == |value| == |c.g.deps|
    && forall n: nat | n < |wasRun| ::
         (wasRun[n] <==> n in Runs(c, e)) && (wasRun[n] ==> Eval(c.g, n) == Ok(value[n]))
  }

  /** The single-threaded framework itself, on any event of a job: it says whether all went
      well, and if so what it leaves is the specification above. */
  method ProcessEvent(c: Config, e: nat, modules: ST.Modules) returns (ok: bool)
    requires Schedulers.Valid(c) && e < |c.pathsOf|
    requires |modules.wasRun| == |modules.value| == |modules.gotten| == |c.g.deps|
    requires forall n | 0 <= n < |c.g.deps| :: |modules.gotten[n]| == |c.g.deps[n]|
    requires forall n | 0 <= n < |c.g.deps| :: !modules.wasRun[n]
    modifies modules
    ensures ok <==> forall k | 0 <= k < |c.pathsOf[e]| :: GoesWell(c.g, c.filters[c.pathsOf[e][k]])
    ensures ok ==> Processed(c, e, modules.wasRun, modules.value)
    ensures ok ==> forall n: nat :: n in modules.ran <==> n in Runs(c, e)
    ensures ST.NoRepeats(modules.ran)
  {
    ok := modules.Process(c.g, PathsOf(c, e));
    forall n: nat | n in Runs(c, e) ensures Node(c.g, n) {
      var paths := PathsOf(c, e);
      ST.ScheduleNeedsAre(c.g, paths, |paths|, n);
      ghost var k: nat, j: nat :| k < |paths| && ST.Visits(c.g, paths, k, j) && n in Needs(c.g, paths[k][j]);
      ST.NeedsRank(c.g, paths[k][j], n);
    }
  }

  /** Whatever the order of its steps, a complete concurrent run of all events has run, for
      every event, what the single-threaded framework runs for it, with the same values, and
      nothing else. */
  lemma ConcurrentIsSequential(c: Config, s: State)
    requires Schedulers.Valid(c) && Reachable(c, s) && AllGoWell(c) && Complete(c, s)
    ensures
      && (forall n: nat :: n in s.ran <==> exists e: nat :: e < |c.pathsOf| && n in Runs(c, e))
      && (forall e: nat, wasRun, value, n: nat {:trigger Processed(c, e, wasRun, value), s.nodes[n]} |
            e < |c.pathsOf| && Processed(c, e, wasRun, value) && n < |wasRun| && wasRun[n] ::
            n in s.ran && s.nodes[n].cached && s.nodes[n].value == value[n])
  {
    AgreesWithSequential(c, s);
    forall n: nat ensures n in s.ran <==> exists e: nat :: e < |c.pathsOf| && n in Runs(c, e) {
      if SequentiallyWanted(c, n) {
        WantedAreRun(c, n);
      }
      if e: nat :| e < |c.pathsOf| && n in Runs(c, e) {
        RunsAreWanted(c, e, n);
      }
    }
    forall e: nat, wasRun, value, n: nat |
      e < |c.pathsOf| && Processed(c, e, wasRun, value) && n < |wasRun| && wasRun[n]
      ensures n in s.ran && s.nodes[n].cached && s.nodes[n].value == value[n]
    {
      RunsAreWanted(c, e, n);
    }
  }

  lemma RunsAreEvents(c: Config, e: nat, n: nat)
    requires Schedulers.Valid(c) && e < |c.pathsOf|
    ensures n in Runs(c, e) <==> WantedByEvent(c, e, n)
  {
    var paths := PathsOf(c, e);
    if n in Runs(c, e) {
      ST.ScheduleNeedsAre(c.g, paths, |paths|, n);
      var k: nat, j: nat :| k < |paths| && ST.Visits(c.g, paths, k, j) && n in Needs(c.g, paths[k][j]);
      assert InEvent(c, e, c.pathsOf[e][k], j);
    }
    if WantedByEvent(c, e, n) {
      var p: nat, j: nat :| InEvent(c, e, p, j) && n in Needs(c.g, c.filters[p][j]);
      RunsHas(c, e, SP.Place(c, p), j, n);
    }
  }

  /** Already when an event calls back in a job without a fatal error so far, whichever event of
      its stream it is and whatever else is in flight: of the stream's modules exactly those
      have run that the single-threaded framework runs for it, with its values. */
  lemma EventIsSequential(c: Config, s: State, e: nat, wasRun: seq<bool>, value: seq<int>)
    requires Schedulers.Valid(c) && Reachable(c, s) && Separate(c)
    requires e < |c.pathsOf| && s.events[e].pc.Finished? && !s.fatal && Processed(c, e, wasRun, value)
    ensures forall n: nat | n < |wasRun| && Owns(c, e, n) ::
      && (n in s.ran <==> wasRun[n])
      && (wasRun[n] ==> s.nodes[n].cached && s.nodes[n].value == value[n])
  {
    EventAgrees(c, s, e);
    forall n: nat | n < |wasRun| && Owns(c, e, n)
      ensures n in s.ran <==> wasRun[n]
      ensures wasRun[n] ==> s.nodes[n].cached && s.nodes[n].value == value[n]
    {
      RunsAreEvents(c, e, n);
    }
  }
}
