// A whole job: the event loop of EventLoop.dfy with the processing of each event as the
// scheduler does it. The source has n events; each stream draws a number, resets its wrappers
// and processes that event, and draws again from its callback.

module WholeJobs {
  import opened Basics
  import opened ModuleGraphs
  import opened Schedulers
  import opened SchedulerProgress
  import opened SchedulerReuse
  import opened SchedulerReset
  import opened SchedulerNextEvent
  import SP = SchedulerPaths
  import EL = EventLoops

  /** The streams' wrappers and paths, one stream for each event under way; how many events the
      source has; and what the modules do with event number i. */
  datatype Job = Job(c: Config, n: nat, works: nat -> ((nat, seq<int>) -> Outcome))

  ghost predicate Formed(b: Job) {
    Valid(b.c) && Separate(b.c) && |b.c.pathsOf| > 0
  }

  /** History: `results`, what the modules had come to when each event called back. */
  datatype Whole = Whole(g: Stage, loop: EL.State, results: map<nat, State>)

  datatype Move =
    | Inside(action: Action)     // of the processing of some event
    | Start                      // processAll starts the next stream
    | Draw(stream: nat)          // a stream goes on from its callback
    | CallBack(stream: nat)      // the all-paths-done task calls back
    | Join

  function Streams(b: Job): nat {
    |b.c.pathsOf|
  }

  ghost function Begin(b: Job): Whole
    requires Formed(b)
  {
    Whole(Stage(b.c, Init(b.c)), EL.Init(Streams(b)), map[])
  }

  /** The job, with every wrapper working on event i. */
  function Numbered(b: Job, i: nat): Config {
    Reworked(b.c, b.works(i))
  }

  ghost predicate Shaped(b: Job, w: Whole) {
    && Formed(b) && Sane(w.g) && w.g.c == Reworked(b.c, w.g.c.g.work)
    && |w.loop.streams| == Streams(b)
  }

  /** Stream k turns to event i, the others keep theirs. */
  ghost function ForEvent(b: Job, g: Stage, k: nat, i: nat): (nat, seq<int>) -> Outcome
    requires Formed(b)
  {
    (n: nat, inputs: seq<int>) => if Owns(b.c, k, n) then b.works(i)(n, inputs) else g.c.g.work(n, inputs)
  }

  /** handleNextEventAsync of stream k resets the wrappers if there is another event. That no
      thread of the last event is late is what SchedulerNextEvent.dfy is about. */
  ghost predicate Opens(b: Job, w: Whole, k: nat)
    requires Shaped(b, w)
  {
    w.loop.seen < b.n ==> GoesOnTo(w.g, k, ForEvent(b, w.g, k, w.loop.seen))
  }

  ghost function Opened(b: Job, w: Whole, k: nat): (g: Stage)
    requires Shaped(b, w) && Opens(b, w, k)
    ensures Sane(g)
  {
    if w.loop.seen < b.n then StageStep(w.g, NextEvent(k, ForEvent(b, w.g, k, w.loop.seen))) else w.g
  }

  ghost predicate Can(b: Job, w: Whole, m: Move)
    requires Shaped(b, w)
  {
    match m
    case Inside(a) =>
      && Enabled(w.g.c, w.g.s, a) && !a.EventFire?
      && (a.LaunchPath? || a.LaunchEnd? ==> a.event < Streams(b) && w.loop.streams[a.event].Processing?)
    case Start => EL.Enabled(w.loop, EL.Start) && Opens(b, w, EL.Order(w.loop.started, Streams(b)))
    case Draw(k) => EL.Enabled(w.loop, EL.Draw(k)) && Opens(b, w, k)
    case CallBack(k) => Enabled(w.g.c, w.g.s, EventFire(k)) && EL.Enabled(w.loop, EL.Finish(k, w.g.s.events[k].exc))
    case Join => EL.Enabled(w.loop, EL.Join)
  }

  ghost function Moved(b: Job, w: Whole, m: Move): (w': Whole)
    requires Shaped(b, w) && Can(b, w, m)
    ensures Shaped(b, w')
  {
    match m
    case Inside(a) => w.(g := StageStep(w.g, Act(a)))
    case Start => Whole(Opened(b, w, EL.Order(w.loop.started, Streams(b))), EL.DoStart(b.n, w.loop), w.results)
    case Draw(k) => Whole(Opened(b, w, k), EL.DoDraw(b.n, w.loop, k), w.results)
    case CallBack(k) =>
      var g := StageStep(w.g, Act(EventFire(k)));
      Whole(g, EL.DoFinish(w.loop, k, w.g.s.events[k].exc), w.results[w.loop.streams[k].event := g.s])
    case Join => w.(loop := w.loop.(joined := true))
  }

  ghost function Next(b: Job, w: Whole, m: Move): (w': Whole)
    requires Shaped(b, w)
    ensures Shaped(b, w')
  {
    if Can(b, w, m) then Moved(b, w, m) else w
  }

  ghost function RunWhole(b: Job, w: Whole, moves: seq<Move>): (w': Whole)
    requires Shaped(b, w)
    ensures Shaped(b, w')
    decreases |moves|
  {
    if moves == [] then w else RunWhole(b, Next(b, w, moves[0]), moves[1..])
  }

  /** What some interleaving brings the job to. */
  ghost predicate ComesTo(b: Job, w: Whole)
    requires Formed(b)
  {
    Shaped(b, w) && exists moves :: w == RunWhole(b, Begin(b), moves)
  }

  // ---------- its two halves ----------

  /** The event loop of the job, by itself, comes to here. */
  ghost predicate Looped(b: Job, loop: EL.State) {
    exists acts :: loop == EL.Run(b.n, EL.Init(Streams(b)), acts)
  }

  lemma {:induction false} LoopOneMore(n: nat, s: EL.State, acts: seq<EL.Action>, a: EL.Action)
    ensures EL.Run(n, s, acts + [a]) == EL.Step(n, EL.Run(n, s, acts), a)
    decreases |acts|
  {
    if acts == [] {
      assert EL.Run(n, s, [a]) == EL.Run(n, EL.Step(n, s, a), [a][1..]);
    } else {
      assert (acts + [a])[1..] == acts[1..] + [a];
      LoopOneMore(n, EL.Step(n, s, acts[0]), acts[1..], a);
    }
  }

  lemma LoopGoesOn(b: Job, loop: EL.State, a: EL.Action)
    requires Looped(b, loop)
    ensures Looped(b, EL.Step(b.n, loop, a))
  {
    var acts :| loop == EL.Run(b.n, EL.Init(Streams(b)), acts);
    LoopOneMore(b.n, EL.Init(Streams(b)), acts, a);
  }

  lemma LoopInv(b: Job, loop: EL.State)
    requires Looped(b, loop) && Streams(b) > 0
    ensures EL.Inv(b.n, loop) && |loop.streams| == Streams(b)
  {
    var acts :| loop == EL.Run(b.n, EL.Init(Streams(b)), acts);
    EL.Reached(b.n, Streams(b), acts);
  }

  lemma {:induction false} StageOneMore(g: Stage, steps: seq<JobStep>, st: JobStep)
    requires Sane(g)
    ensures RunJob(g, steps + [st]) == StageStep(RunJob(g, steps), st)
    decreases |steps|
  {
    if steps == [] {
      assert RunJob(g, [st]) == RunJob(StageStep(g, st), [st][1..]);
    } else {
      assert (steps + [st])[1..] == steps[1..] + [st];
      StageOneMore(StageStep(g, steps[0]), steps[1..], st);
    }
  }

  lemma StageGoesOn(g: Stage, st: JobStep)
    requires Sane(g) && Reachable(g.c, g.s)
    ensures Reachable(StageStep(g, st).c, StageStep(g, st).s)
  {
    var g0, steps :| FromStart(g0, steps, g.c, g.s);
    StageOneMore(g0, steps, st);
    assert FromStart(g0, steps + [st], StageStep(g, st).c, StageStep(g, st).s);
  }
}
