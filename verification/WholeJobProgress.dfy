// A whole job always comes to its end, with all its streams resetting only when no thread of
// the last event is late; and when a stream never has to wait for one.

module WholeJobProgress {
  import opened Basics
  import opened ModuleGraphs
  import opened Schedulers
  import opened SchedulerPrefetch
  import opened SchedulerPaths
  import opened SchedulerDemand
  import opened SchedulerLists
  import opened SchedulerReuse
  import opened SchedulerReset
  import opened SchedulerNextEvent
  import opened WholeJobs
  import opened WholeJobTheorems
  import PR = SchedulerProgress
  import SU = SchedulerUnshared
  import EL = EventLoops
  import WL = WaitLists

  // ---------- who has to wait ----------

  /** A stream whose first path is not launched has no late thread. */
  lemma NobodyBeforeBegin(c: Config, s: State, e: nat)
    requires Valid(c) && Fits(c, s) && PR.Inv(c, s) && Separate(c)
    requires e < |s.events| && s.events[e].pc == Launch(0)
    ensures NoStraggler(c, s, e)
  {
    forall t | t in s.starts && t.path < |c.eventOf| ensures c.eventOf[t.path] != e {
      assert StarterAt(c, s, t);
      if c.eventOf[t.path] == e {
        RestingPath(c, s, e, t.path);
      }
    }
  }

  lemma UnusedWrapper(c: Config, s: State, e: nat, n: nat)
    requires Valid(c) && Fits(c, s) && PR.Inv(c, s) && Separate(c)
    requires e < |s.events| && s.events[e].pc == Launch(0) && Owns(c, e, n) && n < |s.nodes|
    ensures s.nodes[n].phase.Idle? && s.nodes[n].list.joined == {} && ClosersPast(s.nodes[n].list)
  {
    assert WantedAt(c, s, n) && NodeAt(c, s, n) && ListAt(c, s, n);
    if !s.nodes[n].phase.Idle? {
      var p: nat, j: nat :| Requested(c, s, p, j) && n in Needs(c.g, c.filters[p][j]);
      assert OnPathOf(c, c.eventOf[p], p, j);
      assert Owns(c, c.eventOf[p], n);
      RestingPath(c, s, e, p);
    }
    forall w ensures w !in s.nodes[n].list.joined {
      NobodyJoined(c, s, e, n, w);
    }
  }

  lemma NobodyJoined(c: Config, s: State, e: nat, n: nat, w: Waiter)
    requires Valid(c) && Fits(c, s) && PR.Inv(c, s) && Separate(c)
    requires e < |s.events| && s.events[e].pc == Launch(0) && Owns(c, e, n) && n < |s.nodes|
    ensures w !in s.nodes[n].list.joined
  {
    if w in s.nodes[n].list.joined {
      assert JoinedAt(c, s, n, w);
      if w.Getter? {
        assert NodeAt(c, s, w.node);
        var d := StartedIsOwned(c, s, w.node);
        OwnsGetter(c, d, w.node, w.index);
        assert WantedAt(c, s, w.node);
        var p: nat, j: nat :| Requested(c, s, p, j) && w.node in Needs(c.g, c.filters[p][j]);
        assert OnPathOf(c, c.eventOf[p], p, j);
        assert Owns(c, c.eventOf[p], w.node);
        RestingPath(c, s, e, p);
      } else {
        OwnsFilter(c, w.path, w.at);
        RestingPath(c, s, e, w.path);
      }
    }
  }

  lemma NobodyLateBeforeBegin(c: Config, s: State, e: nat)
    requires Valid(c) && Fits(c, s) && PR.Inv(c, s) && Separate(c)
    requires e < |s.events| && s.events[e].pc == Launch(0)
    ensures NoStraggler(c, s, e) && NoLateCloser(c, s, e)
  {
    NobodyBeforeBegin(c, s, e);
    forall n: nat | n < |s.nodes| && Owns(c, e, n) ensures ClosersPast(s.nodes[n].list) {
      UnusedWrapper(c, s, e, n);
    }
  }

  /** The stream is about to turn to an event, as far as the event loop is concerned. */
  lemma OpensExactly(b: Job, w: Whole, k: nat)
    requires WholeInv(b, w) && k < Streams(b) && (w.loop.streams[k].NotStarted? || w.loop.streams[k].Drawing?)
    ensures Opens(b, w, k) <==>
      w.loop.seen >= b.n || (NoStraggler(w.g.c, w.g.s, k) && NoLateCloser(w.g.c, w.g.s, k))
  {
    assert StreamAt(b, w, k);
    StaysSeparate(b, w.g.c);
    var work := ForEvent(b, w.g, k, w.loop.seen);
    forall n, inputs ensures Owns(w.g.c, k, n) || work(n, inputs) == w.g.c.g.work(n, inputs) {
      SameOwns(b.c, w.g.c.g.work, k, n);
    }
    assert Prepared(w.g.c, w.g.s, k, work);
  }

  /** processAll never has to wait before it starts a stream. */
  lemma StartIsOpen(b: Job, w: Whole)
    requires WholeInv(b, w) && EL.Enabled(w.loop, EL.Start)
    ensures Can(b, w, Start)
  {
    var k := EL.Order(w.loop.started, Streams(b));
    LoopInv(b, w.loop);
    assert EL.StartAt(w.loop, w.loop.started) && StreamAt(b, w, k);
    StaysSeparate(b, w.g.c);
    Reached(w.g.c, w.g.s);
    NobodyLateBeforeBegin(w.g.c, w.g.s, k);
    OpensExactly(b, w, k);
  }

  /** A stream has to wait exactly for the late threads of its last event, and not at all where
      the modules are asked for from one place each. */
  lemma WaitsExactly(b: Job, w: Whole, k: nat)
    requires Formed(b) && ComesTo(b, w) && EL.Enabled(w.loop, EL.Draw(k))
    ensures Can(b, w, Draw(k)) <==>
      w.loop.seen >= b.n || (NoStraggler(w.g.c, w.g.s, k) && NoLateCloser(w.g.c, w.g.s, k))
    ensures SU.Unshared(b.c, k) ==> Can(b, w, Draw(k))
  {
    ComesToInv(b, w);
    OpensExactly(b, w, k);
    if SU.Unshared(b.c, k) {
      assert StreamAt(b, w, k);
      StaysSeparate(b, w.g.c);
      SU.SameUnshared(b.c, w.g.c, k);
      SU.UnsharedIsSafe(w.g.c, w.g.s, k);
    }
  }

  // ---------- it goes on ----------

  /** A late thread goes on by itself. */
  lemma LateGoesOn(c: Config, s: State, e: nat) returns (a: Action)
    requires Valid(c) && Fits(c, s) && PR.Inv(c, s) && !(NoStraggler(c, s, e) && NoLateCloser(c, s, e))
    ensures Enabled(c, s, a) && PR.Within(a)
  {
    if t :| t in s.starts && t.path < |c.eventOf| && c.eventOf[t.path] == e {
      a := PR.StarterGoesOn(c, s, t);
    } else {
      var n: nat :| n < |s.nodes| && Owns(c, e, n) && !ClosersPast(s.nodes[n].list);
      a := if s.nodes[n].list.taking then Take(n) else Look(n);
    }
  }

  lemma StreamGoesOn(b: Job, w: Whole, k: nat) returns (m: Move)
    requires WholeInv(b, w) && k < Streams(b)
    requires w.loop.streams[k].Processing? || w.loop.streams[k].Drawing?
    ensures Can(b, w, m)
  {
    Reached(w.g.c, w.g.s);
    assert StreamAt(b, w, k);
    if w.loop.streams[k].Processing? {
      var a := PR.EventGoesOn(w.g.c, w.g.s, k);
      m := if a.EventFire? then CallBack(k) else Inside(a);
    } else {
      OpensExactly(b, w, k);
      if Opens(b, w, k) {
        m := Draw(k);
      } else {
        var a := LateGoesOn(w.g.c, w.g.s, k);
        m := Inside(a);
      }
    }
  }

  lemma JobGoesOn(b: Job, w: Whole) returns (m: Move)
    requires WholeInv(b, w) && !w.loop.joined
    ensures Can(b, w, m)
  {
    LoopInv(b, w.loop);
    if w.loop.started < Streams(b) {
      StartIsOpen(b, w);
      m := Start;
    } else if k: nat :| k < Streams(b) && !w.loop.streams[k].Over? {
      assert EL.StartAt(w.loop, if k == 0 then Streams(b) - 1 else k - 1);
      m := StreamGoesOn(b, w, k);
    } else {
      m := Join;
    }
  }

  // ---------- and ends ----------

  ghost function LoopMeasure(b: Job, w: Whole): nat {
    EL.Measure(b.n, w.loop)
  }

  ghost function EventsMeasure(b: Job, w: Whole): nat
    requires Shaped(b, w)
  {
    PR.Measure(w.g.c, w.g.s)
  }

  /** Every move is a step of the event loop, which brings its end nearer, or one inside the
      events, which brings theirs nearer. */
  lemma MoveFalls(b: Job, w: Whole, m: Move)
    requires WholeInv(b, w) && Can(b, w, m)
    ensures var w' := Moved(b, w, m);
      || LoopMeasure(b, w') < LoopMeasure(b, w)
      || (w'.loop == w.loop && EventsMeasure(b, w') < EventsMeasure(b, w))
  {
    LoopInv(b, w.loop);
    Reached(w.g.c, w.g.s);
    match m
    case Inside(a) => PR.StepFalls(w.g.c, w.g.s, a);
    case Start => EL.StepFalls(b.n, w.loop, EL.Start);
    case Draw(k) => EL.StepFalls(b.n, w.loop, EL.Draw(k));
    case CallBack(k) => EL.StepFalls(b.n, w.loop, EL.Finish(k, w.g.s.events[k].exc));
    case Join => EL.StepFalls(b.n, w.loop, EL.Join);
  }

  lemma OneMoreMove(b: Job, w: Whole, m: Move, rest: seq<Move>)
    requires Shaped(b, w) && Can(b, w, m)
    ensures RunWhole(b, w, [m] + rest) == RunWhole(b, Moved(b, w, m), rest)
  {
    assert ([m] + rest)[1..] == rest;
  }

  lemma {:induction false} JobEnds(b: Job, w: Whole) returns (moves: seq<Move>)
    requires WholeInv(b, w)
    ensures RunWhole(b, w, moves).loop.joined
    decreases LoopMeasure(b, w), EventsMeasure(b, w)
  {
    if w.loop.joined {
      moves := [];
    } else {
      var m := JobGoesOn(b, w);
      MoveFalls(b, w, m);
      JobMoveKeeps(b, w, m);
      var rest := JobEnds(b, Moved(b, w, m));
      moves := [m] + rest;
      OneMoreMove(b, w, m, rest);
    }
  }

  /** Wherever a job has come to before its barrier there is a move to make, and however its
      threads go on from there it can come to the barrier. */
  lemma JobAlwaysEnds(b: Job, w: Whole)
    requires Formed(b) && ComesTo(b, w)
    ensures !w.loop.joined ==> exists m :: Can(b, w, m)
    ensures exists moves :: RunWhole(b, w, moves).loop.joined
  {
    ComesToInv(b, w);
    if !w.loop.joined {
      var m := JobGoesOn(b, w);
    }
    var moves := JobEnds(b, w);
  }
}
