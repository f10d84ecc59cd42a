// The scheduler over the real serial queues, access by access, instead of the atomic ones.
// Everything that never happens in the one never happens in the other; but the real queue can
// leave a task behind, and then, and only then, the job is stuck before it is done.

module SchedulerOverQueues {
  import opened Basics
  import opened ModuleGraphs
  import opened Schedulers
  import opened SchedulerQueues
  import opened SchedulerProgress
  import opened SchedulerNextEvent
  import WQ = WorkQueues
  import SQ = SerialTaskQueues
  import SQT = SerialTaskQueueTheorems

  /** The job with its real queues. History: `names`, the module of each task pushed to a
      queue, in that order. */
  datatype Job = Job(g: Stage, actual: seq<SQ.State>, names: seq<seq<nat>>)

  datatype Move =
    | Plain(action: Action)                                      // a step that is not about a queue
    | PushTo(node: nat, agent: SQ.AgentId, task: SQ.Task)        // the run task pushes its module
    | Access(queue: nat, agent: SQ.AgentId)                      // the next access of an agent of a queue
    | Another(event: nat, work: (nat, seq<int>) -> Outcome)      // a stream goes on to its next event

  ghost function InitJob(c: Config): Job
    requires Valid(c)
  {
    Job(Stage(c, Init(c)), seq(c.queues, _ => SQ.Init()), seq(c.queues, _ => []))
  }

  ghost predicate Shaped(j: Job) {
    Sane(j.g) && |j.actual| == |j.names| == j.g.c.queues
  }

  /** A task of the queue has been pulled and has not returned. */
  predicate Busy(r: SQ.State) {
    && r.h.owner.Some? && r.h.owner.value in r.agents
    && (r.agents[r.h.owner.value].pc.Spawned? || r.agents[r.h.owner.value].pc.Running?)
  }

  /** It has begun to execute. */
  predicate Begun(r: SQ.State) {
    Busy(r) && r.agents[r.h.owner.value].pc.Running?
  }

  /** The next access of the agent pulls a task. */
  predicate Pulls(r: SQ.State, p: SQ.AgentId) {
    p in r.agents && (r.agents[p].pc.Pop? || r.agents[p].pc.PopAgain?) && r.tasks != []
  }

  predicate Returns(r: SQ.State, p: SQ.AgentId) {
    p in r.agents && r.agents[p].pc.Running?
  }

  ghost predicate Can(j: Job, m: Move)
    requires Shaped(j)
  {
    var c, s := j.g.c, j.g.s;
    match m
    case Plain(a) =>
      && Enabled(c, s, a) && !a.StartQueued? && !a.Leave?
      && (a.Execute? ==> c.queue[a.node] == None)
      && ((a.Work? || a.Announce?) && c.queue[a.node].Some? ==> Begun(j.actual[c.queue[a.node].value]))
    case PushTo(n, p, t) =>
      && Enabled(c, s, Execute(n)) && c.queue[n].Some?
      && SQ.Enabled(j.actual[c.queue[n].value], SQ.Push(p, t))
    case Access(q, p) =>
      && q < |j.actual| && SQ.Enabled(j.actual[q], SQ.Advance(p))
      && (Returns(j.actual[q], p) ==> Enabled(c, s, Action.Leave(q)))
    case Another(e, work) => GoesOnTo(j.g, e, work)
  }

  /** What a move is for the scheduler: one of its steps, or nothing. */
  ghost function Seen(j: Job, m: Move): Option<JobStep>
    requires Shaped(j) && Can(j, m)
  {
    match m
    case Plain(a) => Some(Act(a))
    case PushTo(n, _, _) => Some(Act(Execute(n)))
    case Access(q, p) =>
      if Pulls(j.actual[q], p) then Some(Act(StartQueued(q)))
      else if Returns(j.actual[q], p) then Some(Act(Action.Leave(q)))
      else None
    case Another(e, work) => Some(NextEvent(e, work))
  }

  ghost function SeenStage(j: Job, m: Move): (g: Stage)
    requires Shaped(j) && Can(j, m)
    ensures Sane(g) && g.c.queues == j.g.c.queues
  {
    match Seen(j, m)
    case None => j.g
    case Some(st) => StageStep(j.g, st)
  }

  /** A reset leaves the queues alone. */
  ghost function Moved(j: Job, m: Move): (j': Job)
    requires Shaped(j) && Can(j, m)
    ensures Shaped(j') && j'.g == SeenStage(j, m)
  {
    var g := SeenStage(j, m);
    match m
    case Plain(_) => j.(g := g)
    case PushTo(n, p, t) =>
      var q := j.g.c.queue[n].value;
      Job(g, j.actual[q := SQ.DoPush(j.actual[q], p, t)], j.names[q := j.names[q] + [n]])
    case Access(q, p) => Job(g, j.actual[q := SQ.Apply(j.actual[q], SQ.Advance(p))], j.names)
    case Another(_, _) => j.(g := g)
  }

  // ---------- the coupling ----------

  /** The atomic queue is what the real one stands for. */
  ghost predicate Coupled(r: SQ.State, names: seq<nat>, w: WQ.WorkQueue<nat>) {
    && SQ.Inv(r) && r.pauses == 0
    && |names| == |r.h.pushed| && |r.h.started| <= |names|
    && w.waiting == names[|r.h.started|..]
    && (Busy(r) ==> |r.h.started| > 0)
    && w.running == if Busy(r) then Some(names[|r.h.started| - 1]) else None
  }

  ghost predicate CoupledAt(j: Job, q: nat)
    requires Shaped(j)
  {
    q < |j.actual| ==> Coupled(j.actual[q], j.names[q], j.g.s.queues[q])
  }

  ghost predicate JobInv(j: Job)
    requires Shaped(j)
  {
    Inv(j.g.c, j.g.s) && forall q {:trigger CoupledAt(j, q)} :: CoupledAt(j, q)
  }

  lemma InitJobInv(c: Config)
    requires Valid(c)
    ensures Shaped(InitJob(c)) && JobInv(InitJob(c))
  {
    InitInv(c);
  }

  lemma SeenKeepsInv(j: Job, m: Move)
    requires Shaped(j) && Inv(j.g.c, j.g.s) && Can(j, m)
    ensures Inv(Moved(j, m).g.c, Moved(j, m).g.s)
  {
    if Seen(j, m).Some? {
      StageKeepsInv(j.g, Seen(j, m).value);
    }
  }

  /** The queue r, and what stands for it, is as it was. */
  ghost predicate SameQueue(j: Job, j': Job, r: nat)
    requires Shaped(j) && Shaped(j')
  {
    && |j'.actual| == |j.actual|
    && (r < |j.actual| ==>
          j'.actual[r] == j.actual[r] && j'.names[r] == j.names[r] && j'.g.s.queues[r] == j.g.s.queues[r])
  }

  lemma SameStaysCoupled(j: Job, j': Job, r: nat)
    requires Shaped(j) && Shaped(j') && CoupledAt(j, r) && SameQueue(j, j', r)
    ensures CoupledAt(j', r)
  {
  }

  lemma PlainLeavesQueues(j: Job, m: Move, r: nat)
    requires Shaped(j) && Can(j, m) && (m.Plain? || m.Another?)
    ensures SameQueue(j, Moved(j, m), r)
  {
  }

  lemma PushCouples(r: SQ.State, names: seq<nat>, w: WQ.WorkQueue<nat>, p: SQ.AgentId, t: SQ.Task, n: nat)
    requires Coupled(r, names, w) && SQ.Enabled(r, SQ.Push(p, t))
    ensures Coupled(SQ.DoPush(r, p, t), names + [n], WQ.Push(w, n))
  {
    SQT.StepKeepsInv(r, SQ.Push(p, t));
    assert (names + [n])[|r.h.started|..] == names[|r.h.started|..] + [n];
  }

  lemma PushSeen(j: Job, n: nat, p: SQ.AgentId, t: SQ.Task, r: nat)
    requires Shaped(j) && Can(j, PushTo(n, p, t))
    ensures var j', q := Moved(j, PushTo(n, p, t)), j.g.c.queue[n].value;
      && (r != q ==> SameQueue(j, j', r))
      && j'.actual[q] == SQ.DoPush(j.actual[q], p, t) && j'.names[q] == j.names[q] + [n]
      && j'.g.s.queues[q] == WQ.Push(j.g.s.queues[q], n)
  {
  }

  lemma PushKeeps(j: Job, n: nat, p: SQ.AgentId, t: SQ.Task, r: nat)
    requires Shaped(j) && CoupledAt(j, r) && Can(j, PushTo(n, p, t))
    ensures CoupledAt(Moved(j, PushTo(n, p, t)), r)
  {
    var q := j.g.c.queue[n].value;
    PushSeen(j, n, p, t, r);
    if r == q {
      PushCouples(j.actual[q], j.names[q], j.g.s.queues[q], p, t, n);
    } else {
      SameStaysCoupled(j, Moved(j, PushTo(n, p, t)), r);
    }
  }

  /** What an access does to what the queue stands for. */
  function Accessed(r: SQ.State, p: SQ.AgentId, w: WQ.WorkQueue<nat>): WQ.WorkQueue<nat> {
    if Pulls(r, p) && w.waiting != [] then WQ.Start(w) else if Returns(r, p) then WQ.Finish(w) else w
  }

  lemma AccessIs(r: SQ.State, p: SQ.AgentId)
    requires SQ.Inv(r) && SQ.Enabled(r, SQ.Advance(p))
    ensures var r' := SQ.Apply(r, SQ.Advance(p));
      && r'.pauses == r.pauses && r'.h.pushed == r.h.pushed
      && (Pulls(r, p) ==> !Busy(r) && Busy(r') && |r'.h.started| == |r.h.started| + 1)
      && (Returns(r, p) ==> Busy(r) && !Busy(r') && r'.h.started == r.h.started)
      && (!Pulls(r, p) && !Returns(r, p) ==> (Busy(r') <==> Busy(r)) && r'.h.started == r.h.started)
  {
    assert SQ.AgentOk(r, p);
    assert r.h.owner.Some? ==> SQ.AgentOk(r, r.h.owner.value);
  }

  lemma AccessCouples(r: SQ.State, names: seq<nat>, w: WQ.WorkQueue<nat>, p: SQ.AgentId)
    requires Coupled(r, names, w) && SQ.Enabled(r, SQ.Advance(p))
    ensures Coupled(SQ.Apply(r, SQ.Advance(p)), names, Accessed(r, p, w))
    ensures Pulls(r, p) ==> w.waiting != [] && w.running == None
  {
    SQT.StepKeepsInv(r, SQ.Advance(p));
    AccessIs(r, p);
    if Pulls(r, p) {
      assert |r.h.pushed| == |r.h.started| + |r.tasks|;
    }
  }

  lemma AccessSeen(j: Job, q: nat, p: SQ.AgentId, r: nat)
    requires Shaped(j) && Can(j, Access(q, p))
    requires Pulls(j.actual[q], p) ==> Enabled(j.g.c, j.g.s, StartQueued(q))
    ensures var j' := Moved(j, Access(q, p));
      && (r != q ==> SameQueue(j, j', r))
      && j'.g.s.queues[q] == Accessed(j.actual[q], p, j.g.s.queues[q])
      && j'.actual[q] == SQ.Apply(j.actual[q], SQ.Advance(p)) && j'.names == j.names
  {
  }

  /** When the real queue hands a task over, the atomic one can. */
  lemma PullStarts(j: Job, q: nat, p: SQ.AgentId)
    requires Shaped(j) && JobInv(j) && q < |j.actual| && SQ.Enabled(j.actual[q], SQ.Advance(p)) && Pulls(j.actual[q], p)
    ensures Enabled(j.g.c, j.g.s, StartQueued(q))
  {
    assert CoupledAt(j, q);
    AccessCouples(j.actual[q], j.names[q], j.g.s.queues[q], p);
    HeadIsQueued(j.g.c, j.g.s, q);
  }

  lemma AccessKeeps(j: Job, q: nat, p: SQ.AgentId, r: nat)
    requires Shaped(j) && Can(j, Access(q, p)) && CoupledAt(j, q) && CoupledAt(j, r)
    requires Pulls(j.actual[q], p) ==> Enabled(j.g.c, j.g.s, StartQueued(q))
    ensures CoupledAt(Moved(j, Access(q, p)), r)
  {
    AccessCouples(j.actual[q], j.names[q], j.g.s.queues[q], p);
    AccessSeen(j, q, p, r);
    if r != q {
      SameStaysCoupled(j, Moved(j, Access(q, p)), r);
    }
  }

  lemma MoveKeepsInv(j: Job, m: Move)
    requires Shaped(j) && JobInv(j) && Can(j, m)
    ensures JobInv(Moved(j, m))
  {
    SeenKeepsInv(j, m);
    forall r: nat ensures CoupledAt(Moved(j, m), r) {
      MoveKeepsCoupled(j, m, r);
    }
  }

  lemma MoveKeepsCoupled(j: Job, m: Move, r: nat)
    requires Shaped(j) && JobInv(j) && Can(j, m)
    ensures CoupledAt(Moved(j, m), r)
  {
    assert CoupledAt(j, r);
    match m
    case PushTo(n, p, t) => PushKeeps(j, n, p, t, r);
    case Access(q, p) =>
      assert CoupledAt(j, q);
      if Pulls(j.actual[q], p) {
        PullStarts(j, q, p);
      }
      AccessKeeps(j, q, p, r);
    case _ =>
      PlainLeavesQueues(j, m, r);
      SameStaysCoupled(j, Moved(j, m), r);
  }

  ghost function Next(j: Job, m: Move): (j': Job)
    requires Shaped(j)
    ensures Shaped(j')
  {
    if Can(j, m) then Moved(j, m) else j
  }

  ghost function RunMoves(j: Job, moves: seq<Move>): (j': Job)
    requires Shaped(j)
    ensures Shaped(j')
    decreases |moves|
  {
    if moves == [] then j else RunMoves(Next(j, moves[0]), moves[1..])
  }

  lemma {:induction false} MovesKeepInv(j: Job, moves: seq<Move>)
    requires Shaped(j) && JobInv(j)
    ensures JobInv(RunMoves(j, moves))
    decreases |moves|
  {
    if moves != [] {
      if Can(j, moves[0]) {
        MoveKeepsInv(j, moves[0]);
      }
      MovesKeepInv(Next(j, moves[0]), moves[1..]);
    }
  }

  lemma OneMoreStep(g: Stage, st: JobStep, rest: seq<JobStep>)
    requires Sane(g)
    ensures RunJob(g, [st] + rest) == RunJob(StageStep(g, st), rest)
  {
    assert ([st] + rest)[1..] == rest;
  }

  lemma MoveIsSeen(j: Job, m: Move)
    requires Shaped(j)
    ensures Next(j, m).g == if Can(j, m) && Seen(j, m).Some? then StageStep(j.g, Seen(j, m).value) else j.g
  {
  }

  lemma {:induction false} RefinesBy(j: Job, moves: seq<Move>) returns (steps: seq<JobStep>)
    requires Shaped(j)
    ensures RunMoves(j, moves).g == RunJob(j.g, steps)
    decreases |moves|
  {
    steps := [];
    if moves != [] {
      MoveIsSeen(j, moves[0]);
      steps := RefinesBy(Next(j, moves[0]), moves[1..]);
      if Can(j, moves[0]) && Seen(j, moves[0]).Some? {
        OneMoreStep(j.g, Seen(j, moves[0]).value, steps);
        steps := [Seen(j, moves[0]).value] + steps;
      }
    }
  }

  /** Every run over the real queues is, for the modules, paths and events, a run of the job
      over the atomic ones, some moves being invisible there; and the atomic queues are what the
      real ones stand for. */
  lemma RefinesScheduler(c: Config, moves: seq<Move>)
    requires Valid(c)
    ensures var j := RunMoves(InitJob(c), moves);
      && (exists steps :: j.g == RunJob(Stage(c, Init(c)), steps))
      && (forall q: nat {:trigger CoupledAt(j, q)} :: CoupledAt(j, q))
  {
    InitJobInv(c);
    var steps := RefinesBy(InitJob(c), moves);
    MovesKeepInv(InitJob(c), moves);
  }

  // ---------- when the job is stuck ----------

  /** Nothing that is under way goes on: no move is left but a stream going on to another
      event. */
  ghost predicate Stuck(j: Job)
    requires Shaped(j)
  {
    forall m :: Can(j, m) ==> m.Another?
  }

  /** An agent of a queue that has not returned goes on, or runs a module that does. */
  lemma AgentGoesOn(j: Job, q: nat, p: SQ.AgentId) returns (m: Move)
    requires Shaped(j) && JobInv(j)
    requires q < |j.actual| && p in j.actual[q].agents && !j.actual[q].agents[p].pc.Returned?
    ensures Can(j, m) && !m.Another?
  {
    var r := j.actual[q];
    assert CoupledAt(j, q) && SQ.AgentOk(r, p) && QueueAt(j.g.c, j.g.s, q);
    AccessCouples(r, j.names[q], j.g.s.queues[q], p);
    if Returns(r, p) && !Enabled(j.g.c, j.g.s, Action.Leave(q)) {
      m := ModuleGoesOn(j, q);
    } else {
      m := Access(q, p);
    }
  }

  lemma ModuleGoesOn(j: Job, q: nat) returns (m: Move)
    requires Shaped(j) && JobInv(j) && q < |j.actual|
    requires Begun(j.actual[q]) && !Enabled(j.g.c, j.g.s, Action.Leave(q))
    ensures Can(j, m) && !m.Another?
  {
    assert CoupledAt(j, q) && QueueAt(j.g.c, j.g.s, q);
    var n := j.g.s.queues[q].running.value;
    m := Plain(if j.g.s.nodes[n].phase.Running? then Work(n) else Announce(n));
  }

  /** With nothing in any queue the job goes on as over the atomic queues. */
  lemma JobGoesOn(j: Job) returns (m: Move)
    requires Shaped(j) && JobInv(j) && !Complete(j.g.c, j.g.s)
    requires forall q: nat | q < |j.actual| :: j.g.s.queues[q].waiting == [] && j.g.s.queues[q].running == None
    ensures Can(j, m) && !m.Another?
  {
    var a := SomethingGoesOn(j.g.c, j.g.s);
    if a.Execute? && j.g.c.queue[a.node].Some? {
      var r := j.actual[j.g.c.queue[a.node].value];
      var p := NewNumber(r.agents.Keys);
      var id := NewNumber(set t | t in r.h.pushed :: t.id);
      assert SQ.Task(id, 0) !in r.h.pushed;
      m := PushTo(a.node, p, SQ.Task(id, 0));
    } else {
      if a.Work? || a.Announce? {
        assert SeatAt(j.g.c, j.g.s, a.node);
      }
      m := Plain(a);
    }
  }

  /** In every run of the job over the real queues, with any number of events on each stream,
      when nothing that is under way goes on: nothing runs in any queue, and everything under
      way is done except when some queue holds a task and was last cleared by
      the second clear of pickNextTask, before which another pick had found the flag set and
      returned. */
  lemma StuckExactly(c: Config, moves: seq<Move>)
    requires Valid(c) && Shaped(InitJob(c)) && Stuck(RunMoves(InitJob(c), moves))
    ensures var j := RunMoves(InitJob(c), moves);
      && (forall q: nat | q < |j.actual| :: SQT.Quiet(j.actual[q]) && j.g.s.queues[q].running == None)
      && (!Complete(j.g.c, j.g.s) <==>
            exists q: nat :: q < |j.actual| && j.actual[q].tasks != [] && j.actual[q].h.lastClear == SQ.AfterSecond(true))
      && (forall q: nat | q < |j.actual| && j.actual[q].tasks != [] ::
            j.actual[q].h.lastClear == SQ.AfterSecond(true) && j.actual[q].h.missed != {})
  {
    InitJobInv(c);
    MovesKeepInv(InitJob(c), moves);
    StuckJob(RunMoves(InitJob(c), moves));
  }

  lemma StuckJob(j: Job)
    requires Shaped(j) && JobInv(j) && Stuck(j)
    ensures forall q: nat | q < |j.actual| :: SQT.Quiet(j.actual[q]) && j.g.s.queues[q].running == None
    ensures !Complete(j.g.c, j.g.s) <==>
      exists q: nat :: q < |j.actual| && j.actual[q].tasks != [] && j.actual[q].h.lastClear == SQ.AfterSecond(true)
    ensures forall q: nat | q < |j.actual| && j.actual[q].tasks != [] ::
      j.actual[q].h.lastClear == SQ.AfterSecond(true) && j.actual[q].h.missed != {}
  {
    forall q: nat | q < |j.actual|
      ensures SQT.Quiet(j.actual[q]) && j.g.s.queues[q].running == None
      ensures |j.g.s.queues[q].waiting| == |j.actual[q].tasks|
      ensures j.actual[q].tasks != [] ==>
        j.actual[q].h.lastClear == SQ.AfterSecond(true) && j.actual[q].h.missed != {}
    {
      QueueStuck(j, q);
    }
    if (forall q: nat | q < |j.actual| :: j.g.s.queues[q].waiting == []) && !Complete(j.g.c, j.g.s) {
      var m := JobGoesOn(j);
    }
  }

  lemma QueueStuck(j: Job, q: nat)
    requires Shaped(j) && JobInv(j) && Stuck(j) && q < |j.actual|
    ensures SQT.Quiet(j.actual[q]) && j.g.s.queues[q].running == None
    ensures |j.g.s.queues[q].waiting| == |j.actual[q].tasks|
    ensures j.actual[q].tasks != [] ==>
      j.actual[q].h.lastClear == SQ.AfterSecond(true) && j.actual[q].h.missed != {}
  {
    var r := j.actual[q];
    assert CoupledAt(j, q);
    forall p | p in r.agents ensures r.agents[p].pc.Returned? {
      if !r.agents[p].pc.Returned? {
        var m := AgentGoesOn(j, q, p);
      }
    }
    SQT.StuckState(r);
    assert |r.h.pushed| == |r.h.started| + |r.tasks|;
  }
}
