// What a whole job comes to: every event of the source processed once, by one stream, as the
// single-threaded framework processes it.

module WholeJobTheorems {
  import opened Basics
  import opened ModuleGraphs
  import opened Schedulers
  import opened SchedulerDemand
  import opened SchedulerProgress
  import opened SchedulerReuse
  import opened SchedulerReset
  import opened SchedulerNextEvent
  import opened SchedulerTheorems
  import opened SchedulerProducts
  import opened WholeJobs
  import SP = SchedulerPaths
  import EL = EventLoops
  import AG = Agreement
  import ST = SingleThreaded

  // ---------- what a stream's wrappers make of its event ----------

  ghost predicate DoesAt(b: Job, c: Config, k: nat, i: nat, n: nat)
    requires Valid(b.c)
  {
    Owns(b.c, k, n) ==> forall inputs :: c.g.work(n, inputs) == b.works(i)(n, inputs)
  }

  /** The wrappers of stream k work on event i. */
  ghost predicate Does(b: Job, c: Config, k: nat, i: nat)
    requires Valid(b.c)
  {
    forall n: nat {:trigger DoesAt(b, c, k, i, n)} :: DoesAt(b, c, k, i, n)
  }

  lemma NumberedIsValid(b: Job, i: nat)
    requires Valid(b.c)
    ensures Valid(Numbered(b, i))
  {
    StillValid(b.c, b.works(i));
  }

  /** Then they come to the same as if all wrappers did. */
  lemma SameOutcome(b: Job, c: Config, k: nat, i: nat, n: nat)
    requires Valid(b.c) && Valid(c) && c == Reworked(b.c, c.g.work) && Does(b, c, k, i)
    requires Owns(b.c, k, n) && Node(c.g, n)
    ensures Valid(Numbered(b, i)) && Eval(c.g, n) == Eval(Numbered(b, i).g, n)
    ensures Culprits(c.g, n) == Culprits(Numbered(b, i).g, n)
  {
    NumberedIsValid(b, i);
    var g := Numbered(b, i).g;
    SameOwns(b.c, c.g.work, k, n);
    SameNeeds(c.g, g, n);
    forall m, inputs | m in Needs(g, n) ensures c.g.work(m, inputs) == g.work(m, inputs) {
      OwnsNeeds(c, k, n, m);
      SameOwns(b.c, c.g.work, k, m);
      assert DoesAt(b, c, k, i, m);
    }
    SameEval(g, c.g, n);
  }

  lemma {:induction false} SamePathLength(b: Job, c: Config, k: nat, i: nat, p: nat, from: nat)
    requires Valid(b.c) && Valid(c) && c == Reworked(b.c, c.g.work) && Does(b, c, k, i)
    requires p < |c.filters| && c.eventOf[p] == k && from <= |c.filters[p]|
    ensures Valid(Numbered(b, i))
    ensures Visited(c.g, c.filters[p], from) == Visited(Numbered(b, i).g, c.filters[p], from)
    decreases |c.filters[p]| - from
  {
    NumberedIsValid(b, i);
    if from < |c.filters[p]| {
      OwnsFilter(b.c, p, from);
      SameOutcome(b, c, k, i, c.filters[p][from]);
      SamePathLength(b, c, k, i, p, from + 1);
    }
  }

  lemma SameWell(b: Job, c: Config, k: nat, i: nat, p: nat)
    requires Valid(b.c) && Valid(c) && c == Reworked(b.c, c.g.work) && Does(b, c, k, i)
    requires p < |c.filters| && c.eventOf[p] == k
    ensures Valid(Numbered(b, i))
    ensures GoesWell(c.g, c.filters[p]) <==> GoesWell(Numbered(b, i).g, c.filters[p])
  {
    SamePathLength(b, c, k, i, p, 0);
    forall j: nat | j < Visited(c.g, c.filters[p], 0)
      ensures Eval(c.g, c.filters[p][j]) == Eval(Numbered(b, i).g, c.filters[p][j])
    {
      OwnsFilter(b.c, p, j);
      SameOutcome(b, c, k, i, c.filters[p][j]);
    }
  }

  lemma SameWanted(b: Job, c: Config, k: nat, i: nat, n: nat)
    requires Valid(b.c) && Valid(c) && c == Reworked(b.c, c.g.work) && Does(b, c, k, i)
    ensures Valid(Numbered(b, i))
    ensures WantedByEvent(c, k, n) <==> WantedByEvent(Numbered(b, i), k, n)
  {
    var c' := Numbered(b, i);
    NumberedIsValid(b, i);
    if p: nat, j: nat :| InEvent(c, k, p, j) && n in Needs(c.g, c.filters[p][j]) {
      SamePathLength(b, c, k, i, p, 0);
      SameNeeds(c.g, c'.g, c.filters[p][j]);
      assert InEvent(c', k, p, j);
    }
    if p: nat, j: nat :| InEvent(c', k, p, j) && n in Needs(c'.g, c'.filters[p][j]) {
      SamePathLength(b, c, k, i, p, 0);
      SameNeeds(c.g, c'.g, c.filters[p][j]);
      assert InEvent(c, k, p, j);
    }
  }

  // ---------- what an event comes to ----------

  /** The single-threaded framework processes event i, by the wrappers of stream k, without an
      exception. */
  ghost predicate EventGoesWell(b: Job, i: nat, k: nat)
    requires Valid(b.c)
  {
    Valid(Numbered(b, i)) && forall p: nat {:trigger b.c.filters[p]} | p < |b.c.filters| && b.c.eventOf[p] == k ::
      GoesWell(Numbered(b, i).g, b.c.filters[p])
  }

  /** In t, of the wrappers of stream k exactly those have run that the single-threaded
      framework runs for event i, and made what they make there. */
  ghost predicate AsInSequence(b: Job, i: nat, k: nat, t: State)
    requires Valid(b.c)
  {
    && Valid(Numbered(b, i)) && |t.nodes| == |b.c.g.deps|
    && forall n: nat {:trigger WantedByEvent(Numbered(b, i), k, n)} | n < |t.nodes| && Owns(b.c, k, n) ::
         && (n in t.ran <==> WantedByEvent(Numbered(b, i), k, n))
         && (WantedByEvent(Numbered(b, i), k, n) ==>
               t.nodes[n].cached && Eval(Numbered(b, i).g, n) == Ok(t.nodes[n].value))
  }

  /** An event that called back without an exception, and no other had one before. */
  lemma WellDone(b: Job, c: Config, s: State, k: nat, i: nat)
    requires Formed(b) && Valid(c) && c == Reworked(b.c, c.g.work) && Reachable(c, s) && Does(b, c, k, i)
    requires k < |c.pathsOf| && s.events[k].pc.Finished? && !s.fatal && Separate(c)
    ensures EventGoesWell(b, i, k) && AsInSequence(b, i, k, s)
  {
    EventAgrees(c, s, k);
    NumberedIsValid(b, i);
    forall p: nat | p < |b.c.filters| && b.c.eventOf[p] == k
      ensures GoesWell(Numbered(b, i).g, b.c.filters[p])
    {
      SameWell(b, c, k, i, p);
    }
    forall n: nat | n < |s.nodes| && Owns(b.c, k, n)
      ensures n in s.ran <==> WantedByEvent(Numbered(b, i), k, n)
      ensures WantedByEvent(Numbered(b, i), k, n) ==>
        s.nodes[n].cached && Eval(Numbered(b, i).g, n) == Ok(s.nodes[n].value)
    {
      SameOwns(b.c, c.g.work, k, n);
      SameWanted(b, c, k, i, n);
      SameOutcome(b, c, k, i, n);
    }
  }

  /** Some filter that the single-threaded framework runs for event i, by the wrappers of stream k,
      fails because the own code of t throws. */
  ghost predicate ThrowsIn(b: Job, i: nat, k: nat, t: Exc)
    requires Valid(b.c)
  {
    Valid(Numbered(b, i)) && exists p: nat, j: nat ::
      InEvent(Numbered(b, i), k, p, j) && t in Culprits(Numbered(b, i).g, b.c.filters[p][j])
  }

  lemma ThrowsBadly(b: Job, i: nat, k: nat, t: Exc)
    requires Valid(b.c) && ThrowsIn(b, i, k, t)
    ensures !EventGoesWell(b, i, k)
  {
    var p: nat, j: nat :| InEvent(Numbered(b, i), k, p, j) && t in Culprits(Numbered(b, i).g, b.c.filters[p][j]);
    CulpritsFail(Numbered(b, i).g, b.c.filters[p][j]);
    assert !GoesWell(Numbered(b, i).g, b.c.filters[p]);
  }

  /** One that called back with an exception. */
  lemma BadlyDone(b: Job, c: Config, s: State, k: nat, i: nat)
    requires Formed(b) && Valid(c) && c == Reworked(b.c, c.g.work) && Reachable(c, s) && Does(b, c, k, i)
    requires k < |c.pathsOf| && s.events[k].pc.Finished? && s.events[k].exc.Some?
    ensures ThrowsIn(b, i, k, s.events[k].exc.value)
  {
    var t := s.events[k].exc.value;
    ExceptionFidelity(c, s, k);
    var l: nat, j: nat :| l < |c.pathsOf[k]| && FailedRequest(c, s, c.pathsOf[k][l], j)
      && t in Culprits(c.g, c.filters[c.pathsOf[k][l]][j]);
    var p := c.pathsOf[k][l];
    FiltersInOrder(c, s, p);
    SamePathLength(b, c, k, i, p, 0);
    OwnsFilter(b.c, p, j);
    SameOutcome(b, c, k, i, c.filters[p][j]);
    assert InEvent(Numbered(b, i), k, p, j);
  }

  // ---------- the invariant of a whole run ----------

  ghost predicate StreamAt(b: Job, w: Whole, k: nat)
    requires Shaped(b, w)
  {
    k < Streams(b) ==>
      var x := w.g.s.events[k];
      match w.loop.streams[k]
      case NotStarted => x.pc == Launch(0) && x.exc == None
      case Processing(i) => !x.pc.Finished? && Does(b, w.g.c, k, i)
      case Drawing => x.pc.Finished? && x.exc == None
      case Over(_) => true
  }

  ghost predicate ResultAt(b: Job, w: Whole, i: nat)
    requires Shaped(b, w)
  {
    i in w.loop.finished ==>
      && i in w.loop.owner && i in w.results
      && EventGoesWell(b, i, w.loop.owner[i]) && AsInSequence(b, i, w.loop.owner[i], w.results[i])
  }

  /** The exception was thrown in an event that is done. */
  ghost predicate Blamed(b: Job, w: Whole)
    requires Valid(b.c) && w.loop.exc.Some?
  {
    exists i: nat :: i in w.loop.finished && i in w.loop.owner && ThrowsIn(b, i, w.loop.owner[i], w.loop.exc.value)
  }

  ghost predicate WholeInv(b: Job, w: Whole) {
    && Shaped(b, w) && Reachable(w.g.c, w.g.s) && Looped(b, w.loop)
    && (forall k: nat {:trigger StreamAt(b, w, k)} :: StreamAt(b, w, k))
    && (if w.loop.exc.Some? then Blamed(b, w)
        else !w.g.s.fatal && forall i: nat {:trigger ResultAt(b, w, i)} :: ResultAt(b, w, i))
  }

  lemma BeginInv(b: Job)
    requires Formed(b)
    ensures WholeInv(b, Begin(b))
  {
    var g := Begin(b).g;
    assert RunJob(g, []) == g && FromStart(g, [], b.c, g.s);
    assert EL.Run(b.n, EL.Init(Streams(b)), []) == EL.Init(Streams(b));
  }

  lemma StaysSeparate(b: Job, c: Config)
    requires Formed(b) && Valid(c) && c == Reworked(b.c, c.g.work)
    ensures Separate(c)
  {
    forall e, d, n | Owns(c, e, n) && Owns(c, d, n) ensures e == d {
      SameOwns(b.c, c.g.work, e, n);
      SameOwns(b.c, c.g.work, d, n);
    }
  }

  // ---------- the moves ----------

  /** Within the processing of events, no event ends, none begins that no stream is at, and no
      exception reaches one that has called back or not begun. */
  lemma InsideEvents(c: Config, s: State, a: Action, k: nat)
    requires Valid(c) && Fits(c, s) && Inv(c, s) && Enabled(c, s, a) && !a.EventFire? && k < |s.events|
    ensures Fits(c, Apply(c, s, a)) && Apply(c, s, a).fatal == s.fatal
    ensures Apply(c, s, a).events[k].pc.Finished? <==> s.events[k].pc.Finished?
    ensures Resting(s, k) && (a.LaunchPath? || a.LaunchEnd? ==> a.event != k) ==>
      Apply(c, s, a).events[k] == s.events[k]
  {
    ApplyFits(c, s, a);
    if a.PathEnd? {
      SP.StoppingCounted(c, s, a.path);
      RestingOrNot(c, s, a.path);
    }
  }

  lemma RestingOrNot(c: Config, s: State, p: nat)
    requires Valid(c) && Fits(c, s) && Inv(c, s) && p < |s.paths| && !s.paths[p].pc.Dormant? && !s.paths[p].pc.Done?
    ensures !Resting(s, c.eventOf[p])
  {
    if Resting(s, c.eventOf[p]) {
      RestingPath(c, s, c.eventOf[p], p);
    }
  }

  lemma InsideKeeps(b: Job, w: Whole, a: Action)
    requires WholeInv(b, w) && Can(b, w, Inside(a))
    ensures WholeInv(b, Moved(b, w, Inside(a)))
  {
    var w' := Moved(b, w, Inside(a));
    Reached(w.g.c, w.g.s);
    StageGoesOn(w.g, Act(a));
    forall k: nat ensures StreamAt(b, w', k) {
      assert StreamAt(b, w, k);
      if k < Streams(b) {
        InsideEvents(w.g.c, w.g.s, a, k);
        assert forall i :: Does(b, w'.g.c, k, i) <==> Does(b, w.g.c, k, i);
      }
    }
    InsideEvents(w.g.c, w.g.s, a, 0);
    SameResults(b, w, w');
  }

  /** What is known of the events that are done. */
  lemma SameResults(b: Job, w: Whole, w': Whole)
    requires WholeInv(b, w) && Shaped(b, w')
    requires w'.loop.finished == w.loop.finished && w'.loop.exc == w.loop.exc && w'.results == w.results
    requires forall i | i in w.loop.owner :: i in w'.loop.owner && w'.loop.owner[i] == w.loop.owner[i]
    requires w'.g.s.fatal == w.g.s.fatal
    ensures if w'.loop.exc.Some? then Blamed(b, w')
            else !w'.g.s.fatal && forall i: nat {:trigger ResultAt(b, w', i)} :: ResultAt(b, w', i)
  {
    if w.loop.exc.Some? {
      var i: nat :| i in w.loop.finished && i in w.loop.owner && ThrowsIn(b, i, w.loop.owner[i], w.loop.exc.value);
      assert i in w'.loop.finished && i in w'.loop.owner && ThrowsIn(b, i, w'.loop.owner[i], w'.loop.exc.value);
    } else {
      forall i: nat ensures ResultAt(b, w', i) {
        assert ResultAt(b, w, i);
      }
    }
  }

  /** Stream k turns to another event. */
  lemma OpenedDoes(b: Job, w: Whole, k: nat, l: nat, i: nat)
    requires WholeInv(b, w) && Opens(b, w, k) && w.loop.seen < b.n && l < Streams(b)
    ensures if l == k then Does(b, Opened(b, w, k).c, k, w.loop.seen)
            else Does(b, w.g.c, l, i) ==> Does(b, Opened(b, w, k).c, l, i)
  {
    var c' := Opened(b, w, k).c;
    forall n: nat ensures l == k ==> DoesAt(b, c', k, w.loop.seen, n) {
    }
    if l != k && Does(b, w.g.c, l, i) {
      forall n: nat ensures DoesAt(b, c', l, i, n) {
        assert DoesAt(b, w.g.c, l, i, n);
        assert !(Owns(b.c, l, n) && Owns(b.c, k, n));
      }
    }
  }

  lemma OpenKeepsStream(b: Job, w: Whole, k: nat, w': Whole, l: nat)
    requires WholeInv(b, w) && k < Streams(b) && Opens(b, w, k)
    requires w' == Whole(Opened(b, w, k), EL.DoDraw(b.n, w.loop, k).(started := w'.loop.started), w.results)
    ensures StreamAt(b, w', l)
  {
    assert StreamAt(b, w, l);
    if l < Streams(b) && w.loop.seen < b.n {
      OpenedDoes(b, w, k, l, if w.loop.streams[l].Processing? then w.loop.streams[l].event else 0);
    }
  }

  lemma OpenedIsReached(b: Job, w: Whole, k: nat)
    requires Shaped(b, w) && Reachable(w.g.c, w.g.s) && k < Streams(b) && Opens(b, w, k)
    ensures var g := Opened(b, w, k);
      Reachable(g.c, g.s) && g.s.fatal == w.g.s.fatal && g.c == Reworked(b.c, g.c.g.work)
  {
    if w.loop.seen < b.n {
      StageGoesOn(w.g, NextEvent(k, ForEvent(b, w.g, k, w.loop.seen)));
    }
  }

  lemma OpenKeeps(b: Job, w: Whole, k: nat, w': Whole)
    requires WholeInv(b, w) && k < Streams(b) && Opens(b, w, k)
    requires w' == Whole(Opened(b, w, k), EL.DoDraw(b.n, w.loop, k).(started := w'.loop.started), w.results)
    requires Looped(b, w'.loop)
    ensures WholeInv(b, w')
  {
    LoopInv(b, w.loop);
    OpenedIsReached(b, w, k);
    forall l: nat ensures StreamAt(b, w', l) {
      OpenKeepsStream(b, w, k, w', l);
    }
    SameResults(b, w, w');
  }

  lemma StartKeeps(b: Job, w: Whole)
    requires WholeInv(b, w) && Can(b, w, Start)
    ensures WholeInv(b, Moved(b, w, Start))
  {
    LoopGoesOn(b, w.loop, EL.Start);
    OpenKeeps(b, w, EL.Order(w.loop.started, Streams(b)), Moved(b, w, Start));
  }

  lemma DrawKeeps(b: Job, w: Whole, k: nat)
    requires WholeInv(b, w) && Can(b, w, Draw(k))
    ensures WholeInv(b, Moved(b, w, Draw(k)))
  {
    LoopGoesOn(b, w.loop, EL.Draw(k));
    OpenKeeps(b, w, k, Moved(b, w, Draw(k)));
  }

  /** What the scheduler has come to with the callback. */
  lemma CalledBack(c: Config, s: State, k: nat)
    requires Valid(c) && Reachable(c, s) && Enabled(c, s, EventFire(k))
    ensures var s' := Apply(c, s, EventFire(k));
      && Fits(c, s') && Reachable(c, s') && s'.events[k].pc.Finished? && s'.events[k].exc == s.events[k].exc
      && s'.fatal == (s.fatal || s.events[k].exc.Some?)
      && (forall l: nat | l < |s.events| && l != k :: s'.events[l] == s.events[l])
  {
    ApplyFits(c, s, EventFire(k));
    StageGoesOn(Stage(c, s), Act(EventFire(k)));
  }

  lemma CallBackResult(b: Job, w: Whole, k: nat)
    requires WholeInv(b, w) && Can(b, w, CallBack(k))
    ensures var i, s' := w.loop.streams[k].event, Moved(b, w, CallBack(k)).g.s;
      && (w.g.s.events[k].exc.Some? ==> ThrowsIn(b, i, k, w.g.s.events[k].exc.value))
      && (w.g.s.events[k].exc == None && !w.g.s.fatal ==>
            !s'.fatal && EventGoesWell(b, i, k) && AsInSequence(b, i, k, s'))
  {
    var i, c := w.loop.streams[k].event, w.g.c;
    assert StreamAt(b, w, k);
    CalledBack(c, w.g.s, k);
    if w.g.s.events[k].exc.Some? {
      BadlyDone(b, c, Apply(c, w.g.s, EventFire(k)), k, i);
    } else if !w.g.s.fatal {
      StaysSeparate(b, c);
      WellDone(b, c, Apply(c, w.g.s, EventFire(k)), k, i);
    }
  }

  lemma CallBackKeepsResults(b: Job, w: Whole, k: nat)
    requires WholeInv(b, w) && Can(b, w, CallBack(k))
    ensures var w' := Moved(b, w, CallBack(k));
      if w'.loop.exc.Some? then Blamed(b, w')
      else !w'.g.s.fatal && forall i: nat {:trigger ResultAt(b, w', i)} :: ResultAt(b, w', i)
  {
    var w', i := Moved(b, w, CallBack(k)), w.loop.streams[k].event;
    LoopInv(b, w.loop);
    assert EL.StreamAt(w.loop, k);
    CallBackResult(b, w, k);
    if w.loop.exc.Some? {
      var j: nat :| j in w.loop.finished && j in w.loop.owner && ThrowsIn(b, j, w.loop.owner[j], w.loop.exc.value);
      assert j in w'.loop.finished && j in w'.loop.owner && ThrowsIn(b, j, w'.loop.owner[j], w'.loop.exc.value);
    } else if w.g.s.events[k].exc.Some? {
      assert i in w'.loop.finished && i in w'.loop.owner && ThrowsIn(b, i, w'.loop.owner[i], w'.loop.exc.value);
    } else {
      forall j: nat ensures ResultAt(b, w', j) {
        assert ResultAt(b, w, j);
      }
    }
  }

  lemma CallBackKeepsStream(b: Job, w: Whole, k: nat, l: nat)
    requires WholeInv(b, w) && Can(b, w, CallBack(k))
    ensures StreamAt(b, Moved(b, w, CallBack(k)), l)
  {
    var w' := Moved(b, w, CallBack(k));
    assert StreamAt(b, w, l) && w'.g.c == w.g.c;
    CalledBack(w.g.c, w.g.s, k);
    if l < Streams(b) && l != k {
      assert w'.loop.streams[l] == w.loop.streams[l] && w'.g.s.events[l] == w.g.s.events[l];
    }
  }

  lemma CallBackKeeps(b: Job, w: Whole, k: nat)
    requires WholeInv(b, w) && Can(b, w, CallBack(k))
    ensures WholeInv(b, Moved(b, w, CallBack(k)))
  {
    LoopGoesOn(b, w.loop, EL.Finish(k, w.g.s.events[k].exc));
    StageGoesOn(w.g, Act(EventFire(k)));
    CallBackKeepsResults(b, w, k);
    forall l: nat ensures StreamAt(b, Moved(b, w, CallBack(k)), l) {
      CallBackKeepsStream(b, w, k, l);
    }
  }

  lemma JoinKeeps(b: Job, w: Whole)
    requires WholeInv(b, w) && Can(b, w, Join)
    ensures WholeInv(b, Moved(b, w, Join))
  {
    var w' := Moved(b, w, Join);
    LoopGoesOn(b, w.loop, EL.Join);
    forall l: nat ensures StreamAt(b, w', l) {
      assert StreamAt(b, w, l);
    }
    SameResults(b, w, w');
  }

  lemma JobMoveKeeps(b: Job, w: Whole, m: Move)
    requires WholeInv(b, w) && Can(b, w, m)
    ensures WholeInv(b, Moved(b, w, m))
  {
    match m
    case Inside(a) => InsideKeeps(b, w, a);
    case Start => StartKeeps(b, w);
    case Draw(k) => DrawKeeps(b, w, k);
    case CallBack(k) => CallBackKeeps(b, w, k);
    case Join => JoinKeeps(b, w);
  }

  lemma {:induction false} WholeReached(b: Job, w: Whole, moves: seq<Move>)
    requires WholeInv(b, w)
    ensures WholeInv(b, RunWhole(b, w, moves))
    decreases |moves|
  {
    if moves != [] {
      if Can(b, w, moves[0]) {
        JobMoveKeeps(b, w, moves[0]);
      }
      WholeReached(b, Next(b, w, moves[0]), moves[1..]);
    }
  }

  // ---------- the whole job ----------

  lemma LoopIsOver(b: Job, loop: EL.State)
    requires Looped(b, loop) && Streams(b) > 0 && loop.joined
    ensures loop.finished == loop.owner.Keys && (loop.exc == None ==> loop.finished == EL.UpTo(b.n))
    ensures forall i: nat | i in loop.owner :: loop.owner[i] < Streams(b)
  {
    LoopInv(b, loop);
    var acts :| loop == EL.Run(b.n, EL.Init(Streams(b)), acts);
    EL.LoopEnds(b.n, Streams(b), acts);
    forall i: nat | i in loop.owner ensures loop.owner[i] < Streams(b) {
      assert EL.EventAt(loop, i);
    }
  }

  lemma ComesToInv(b: Job, w: Whole)
    requires Formed(b) && ComesTo(b, w)
    ensures WholeInv(b, w)
  {
    var moves :| w == RunWhole(b, Begin(b), moves);
    BeginInv(b);
    WholeReached(b, Begin(b), moves);
  }

  /** The single-threaded framework processes every event that was given out without an
      exception. */
  ghost predicate AllWell(b: Job, w: Whole)
    requires Valid(b.c)
  {
    forall i: nat {:trigger EventGoesWell(b, i, w.loop.owner[i])} | i in w.loop.owner ::
      EventGoesWell(b, i, w.loop.owner[i])
  }

  /** When the callback for event i came, it was as in sequence. */
  ghost predicate InSequenceAt(b: Job, w: Whole, i: nat)
    requires Valid(b.c)
  {
    && i in w.loop.owner && w.loop.owner[i] < Streams(b) && i in w.results
    && AsInSequence(b, i, w.loop.owner[i], w.results[i])
  }

  /** When a job is past its barrier, processAll rethrows an exception exactly when the
      single-threaded framework has one for some event that was given out, and one that a module
      throws which a filter needs that it runs for such an event. If it has none, each
      of the n events was given to one stream, and when that called back for it, exactly those
      of its modules had run that the single-threaded framework runs for this event, with its
      values. */
  lemma WholeJobIsSequential(b: Job, w: Whole)
    requires Formed(b) && ComesTo(b, w) && w.loop.joined
    ensures w.loop.finished == w.loop.owner.Keys
    ensures w.loop.exc == None <==> AllWell(b, w)
    ensures w.loop.exc.Some? ==>
      exists i: nat :: i in w.loop.owner && ThrowsIn(b, i, w.loop.owner[i], w.loop.exc.value)
    ensures w.loop.exc == None ==> w.loop.owner.Keys == EL.UpTo(b.n)
    ensures w.loop.exc == None ==> forall i: nat {:trigger InSequenceAt(b, w, i)} | i < b.n :: InSequenceAt(b, w, i)
  {
    ComesToInv(b, w);
    LoopIsOver(b, w.loop);
    if w.loop.exc == None {
      WellOver(b, w);
    } else {
      var i: nat :| i in w.loop.finished && i in w.loop.owner && ThrowsIn(b, i, w.loop.owner[i], w.loop.exc.value);
      ThrowsBadly(b, i, w.loop.owner[i], w.loop.exc.value);
    }
  }

  lemma WellOver(b: Job, w: Whole)
    requires WholeInv(b, w) && w.loop.exc == None && w.loop.finished == w.loop.owner.Keys
    requires forall i: nat | i in w.loop.owner :: w.loop.owner[i] < Streams(b)
    ensures AllWell(b, w) && forall i: nat {:trigger InSequenceAt(b, w, i)} | i in w.loop.owner :: InSequenceAt(b, w, i)
  {
    forall i: nat | i in w.loop.owner ensures EventGoesWell(b, i, w.loop.owner[i]) && InSequenceAt(b, w, i) {
      assert ResultAt(b, w, i);
    }
  }

  /** And said of the products themselves: when the callback for event i came, what a module of
      its stream had made is what the module's own code puts for event i on the products that
      were there for its getters. */
  lemma EachEventComputes(b: Job, w: Whole, i: nat, n: nat)
    requires Formed(b) && ComesTo(b, w) && w.loop.joined && w.loop.exc == None && i < b.n
    requires i in w.loop.owner && i in w.results && Owns(b.c, w.loop.owner[i], n) && n in w.results[i].ran
    ensures |w.results[i].nodes| == |b.c.g.deps| && n < |b.c.g.deps|
    ensures exists inputs ::
      && HasGot(b.c, w.results[i].nodes, n, inputs)
      && b.works(i)(n, inputs) == Put(w.results[i].nodes[n].value)
  {
    WholeJobIsSequential(b, w);
    assert InSequenceAt(b, w, i);
    OwnedIsNode(b.c, w.loop.owner[i], n);
    Computed(b, i, w.loop.owner[i], w.results[i], n);
  }

  lemma OwnedIsNode(c: Config, e: nat, n: nat)
    requires Valid(c) && Owns(c, e, n)
    ensures n < |c.g.deps|
  {
    var p: nat, j: nat :| OnPathOf(c, e, p, j) && n in Needs(c.g, c.filters[p][j]);
    ST.NeedsRank(c.g, c.filters[p][j], n);
  }

  lemma Computed(b: Job, i: nat, k: nat, t: State, n: nat)
    requires Valid(b.c) && AsInSequence(b, i, k, t) && n < |t.nodes| && Owns(b.c, k, n) && n in t.ran
    ensures exists inputs :: HasGot(b.c, t.nodes, n, inputs) && b.works(i)(n, inputs) == Put(t.nodes[n].value)
  {
    var c := Numbered(b, i);
    assert WantedByEvent(c, k, n);
    EvalIs(c.g, n, t.nodes[n].value);
    var inputs :| AreInputs(c.g, n, inputs) && c.g.work(n, inputs) == Put(t.nodes[n].value);
    forall l: nat | l < |inputs| ensures t.nodes[c.g.deps[n][l]].cached && t.nodes[c.g.deps[n][l]].value == inputs[l] {
      OwnsGetter(b.c, k, n, l);
      var p: nat, j: nat :| InEvent(c, k, p, j) && n in Needs(c.g, c.filters[p][j]);
      NeedsClosed(c.g, c.filters[p][j], n, l);
      assert WantedByEvent(c, k, c.g.deps[n][l]);
    }
    assert HasGot(b.c, t.nodes, n, inputs);
  }

  // ---------- in terms of the moves ----------

  /** What the modules have come to at each callback of a run. */
  ghost function CallBacks(b: Job, w: Whole, moves: seq<Move>): map<nat, State>
    requires Shaped(b, w)
    decreases |moves|
  {
    if moves == [] then map[] else CalledWith(b, w, moves[0]) + CallBacks(b, Next(b, w, moves[0]), moves[1..])
  }

  /** If the move is a callback, what it finds, by the number of its event. */
  ghost function CalledWith(b: Job, w: Whole, m: Move): map<nat, State>
    requires Shaped(b, w)
  {
    if m.CallBack? && Can(b, w, m)
    then map[w.loop.streams[m.stream].event := Step(w.g.c, w.g.s, EventFire(m.stream))]
    else map[]
  }

  /** The exception of the first callback that has one. */
  ghost function FirstException(b: Job, w: Whole, moves: seq<Move>): Option<Exc>
    requires Shaped(b, w)
    decreases |moves|
  {
    if moves == [] then None
    else if moves[0].CallBack? && Can(b, w, moves[0]) && w.g.s.events[moves[0].stream].exc.Some?
    then w.g.s.events[moves[0].stream].exc
    else FirstException(b, Next(b, w, moves[0]), moves[1..])
  }

  lemma MoveRecords(b: Job, w: Whole, m: Move)
    requires Shaped(b, w)
    ensures Next(b, w, m).results == w.results + CalledWith(b, w, m)
    ensures Next(b, w, m).loop.exc ==
      if w.loop.exc == None && m.CallBack? && Can(b, w, m) then w.g.s.events[m.stream].exc else w.loop.exc
  {
  }

  lemma Merged(x: map<nat, State>, y: map<nat, State>, z: map<nat, State>)
    ensures (x + y) + z == x + (y + z)
  {
  }

  /** What is on record is what the callbacks were called with. */
  lemma {:induction false} RecordedAre(b: Job, w: Whole, moves: seq<Move>)
    requires Shaped(b, w)
    ensures RunWhole(b, w, moves).results == w.results + CallBacks(b, w, moves)
    decreases |moves|
  {
    if moves == [] {
      assert w.results + map[] == w.results;
    } else {
      MoveRecords(b, w, moves[0]);
      RecordedAre(b, Next(b, w, moves[0]), moves[1..]);
      Merged(w.results, CalledWith(b, w, moves[0]), CallBacks(b, Next(b, w, moves[0]), moves[1..]));
    }
  }

  /** And the exception that is rethrown is the first of theirs. */
  lemma {:induction false} RethrowsFirst(b: Job, w: Whole, moves: seq<Move>)
    requires Shaped(b, w)
    ensures RunWhole(b, w, moves).loop.exc == if w.loop.exc.Some? then w.loop.exc else FirstException(b, w, moves)
    decreases |moves|
  {
    if moves != [] {
      MoveRecords(b, w, moves[0]);
      RethrowsFirst(b, Next(b, w, moves[0]), moves[1..]);
    }
  }

  /** That is, what the single-threaded framework itself leaves behind for event i. */
  lemma EachEventIsSequential(b: Job, w: Whole, i: nat, wasRun: seq<bool>, value: seq<int>)
    requires Formed(b) && ComesTo(b, w) && w.loop.joined && w.loop.exc == None && i < b.n
    requires i in w.loop.owner && w.loop.owner[i] < Streams(b) && Valid(Numbered(b, i))
    requires AG.Processed(Numbered(b, i), w.loop.owner[i], wasRun, value)
    ensures i in w.results && |w.results[i].nodes| == |wasRun|
    ensures forall n: nat | n < |wasRun| && Owns(b.c, w.loop.owner[i], n) ::
      && (n in w.results[i].ran <==> wasRun[n])
      && (wasRun[n] ==> w.results[i].nodes[n].cached && w.results[i].nodes[n].value == value[n])
  {
    WholeJobIsSequential(b, w);
    assert InSequenceAt(b, w, i);
    forall n: nat | n < |wasRun| && Owns(b.c, w.loop.owner[i], n)
      ensures n in w.results[i].ran <==> wasRun[n]
      ensures wasRun[n] ==> w.results[i].nodes[n].cached && w.results[i].nodes[n].value == value[n]
    {
      AG.RunsAreEvents(Numbered(b, i), w.loop.owner[i], n);
    }
  }
}
