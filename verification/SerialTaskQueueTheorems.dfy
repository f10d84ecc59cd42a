// What the serial queue guarantees over every run.

module SerialTaskQueueTheorems {
  import opened Basics
  import opened SerialTaskQueues
  import WorkQueues

  lemma AccessKeepsSlot(s: State, p: AgentId)
    requires Slot(s) && AgentOk(s, p) && Enabled(s, Advance(p))
    ensures Slot(Apply(s, Advance(p)))
  {
  }

  lemma AccessKeepsAgent(s: State, p: AgentId)
    requires Slot(s) && AgentOk(s, p) && Enabled(s, Advance(p))
    ensures AgentOk(Apply(s, Advance(p)), p)
  {
  }

  lemma AccessKeepsOther(s: State, p: AgentId, q: AgentId)
    requires Slot(s) && AgentOk(s, p) && AgentOk(s, q) && Enabled(s, Advance(p)) && q != p
    ensures AgentOk(Apply(s, Advance(p)), q)
  {
  }

  lemma CallKeepsAgent(s: State, a: Action, q: AgentId)
    requires Slot(s) && AgentOk(s, q) && Enabled(s, a) && !a.Advance?
    ensures AgentOk(Apply(s, a), q) && Slot(Apply(s, a))
  {
  }

  lemma StepKeepsAgents(s: State, a: Action)
    requires Agents(s) && Slot(s) && Enabled(s, a)
    ensures Agents(Apply(s, a)) && Slot(Apply(s, a))
  {
    if a.Advance? {
      assert AgentOk(s, a.agent);
      AccessKeepsSlot(s, a.agent);
    } else {
      assert AgentOk(s, 0);
      CallKeepsAgent(s, a, 0);
    }
    forall q ensures AgentOk(Apply(s, a), q) {
      assert AgentOk(s, q);
      if !a.Advance? {
        CallKeepsAgent(s, a, q);
      } else if q == a.agent {
        AccessKeepsAgent(s, q);
      } else {
        AccessKeepsOther(s, a.agent, q);
      }
    }
  }

  lemma PopKeepsOrder(s: State, p: AgentId, otherwise: Pc)
    requires Order(s) && p in s.agents && s.h.owner == Some(p)
    requires !s.agents[p].pc.Spawned? && !otherwise.Spawned?
    ensures Order(DoPop(s, p, otherwise))
  {
  }

  lemma AccessKeepsOrder(s: State, p: AgentId)
    requires Order(s) && Slot(s) && AgentOk(s, p) && Enabled(s, Advance(p))
    requires !s.agents[p].pc.Pop? && !s.agents[p].pc.PopAgain?
    requires s.h.owner.Some? ==> AgentOk(s, s.h.owner.value)
    ensures Order(Apply(s, Advance(p)))
  {
  }

  lemma CallKeepsOrder(s: State, a: Action)
    requires Order(s) && Slot(s) && Enabled(s, a) && !a.Advance?
    ensures Order(Apply(s, a))
  {
  }

  lemma StepKeepsOrder(s: State, a: Action)
    requires Inv(s) && Enabled(s, a)
    ensures Order(Apply(s, a))
  {
    assert a.Advance? ==> AgentOk(s, a.agent);
    assert s.h.owner.Some? ==> AgentOk(s, s.h.owner.value);
    if !a.Advance? {
      CallKeepsOrder(s, a);
    } else if s.agents[a.agent].pc.Pop? {
      PopKeepsOrder(s, a.agent, Clear);
    } else if s.agents[a.agent].pc.PopAgain? {
      PopKeepsOrder(s, a.agent, ClearAgain);
    } else {
      AccessKeepsOrder(s, a.agent);
    }
  }

  lemma StepKeepsPaused(s: State, a: Action)
    requires Inv(s) && Enabled(s, a)
    ensures Paused(Apply(s, a))
  {
    assert a.Advance? ==> AgentOk(s, a.agent);
  }

  lemma StepKeepsAttended(s: State, a: Action)
    requires Inv(s) && Enabled(s, a)
    ensures Attended(Apply(s, a))
  {
    var s' := Apply(s, a);
    assert a.Advance? ==> AgentOk(s, a.agent);
    if a.Push? || a.Resume? {
      assert a.agent in s'.agents;
    } else if a.Advance? && Watches(s'.agents[a.agent].pc) {
      assert Watched(s');
    }
    if Watched(s) {
      var w :| w in s.agents && Watches(s.agents[w].pc);
      assert w in s'.agents && ((!a.Advance? || w != a.agent) ==> Watches(s'.agents[w].pc));
    }
  }

  lemma CallKeepsBlamed(s: State, a: Action)
    requires Inv(s) && Enabled(s, a) && !a.Advance?
    ensures Blamed(Apply(s, a))
  {
    var s' := Apply(s, a);
    if a.Push? || a.Resume? {
      assert a.agent in s'.agents;
    }
    if Watched(s) {
      var w :| w in s.agents && Watches(s.agents[w].pc);
      assert w in s'.agents && s'.agents[w] == s.agents[w];
    }
  }

  lemma AccessKeepsBlamed(s: State, p: AgentId)
    requires Inv(s) && Enabled(s, Advance(p))
    ensures Blamed(Apply(s, Advance(p)))
  {
    var s' := Apply(s, Advance(p));
    assert AgentOk(s, p);
    if Watches(s'.agents[p].pc) {
      assert Watched(s');
    }
    if Watched(s) {
      var w :| w in s.agents && Watches(s.agents[w].pc);
      assert w in s'.agents && (w != p ==> s'.agents[w] == s.agents[w]);
    }
  }

  lemma StepKeepsInv(s: State, a: Action)
    requires Inv(s)
    ensures Inv(Step(s, a))
  {
    if Enabled(s, a) {
      if a.Advance? {
        AccessKeepsBlamed(s, a.agent);
      } else {
        CallKeepsBlamed(s, a);
      }
      StepKeepsAgents(s, a);
      StepKeepsOrder(s, a);
      StepKeepsPaused(s, a);
      StepKeepsAttended(s, a);
    }
  }

  lemma {:induction false} RunKeepsInv(s: State, acts: seq<Action>)
    requires Inv(s)
    ensures Inv(Run(s, acts))
    decreases |acts|
  {
    if acts != [] {
      StepKeepsInv(s, acts[0]);
      RunKeepsInv(Step(s, acts[0]), acts[1..]);
    }
  }

  lemma Reached(acts: seq<Action>) returns (s: State)
    ensures s == Run(Init(), acts) && Inv(s)
  {
    s := Run(Init(), acts);
    RunKeepsInv(Init(), acts);
  }

  predicate Quiet(s: State) {
    forall p | p in s.agents :: s.agents[p].pc.Returned?
  }

  /** The flag is set exactly while one agent owns the slot, so at most one agent is between
      pulling a task and the clear that ends it, also across a hand-over to another group. */
  lemma MutualExclusion(acts: seq<Action>)
    ensures
      var s := Run(Init(), acts);
      && (s.chosen <==> exists p :: p in s.agents && Owns(s.agents[p].pc))
      && (forall p, q | p in s.agents && q in s.agents && Owns(s.agents[p].pc) && Owns(s.agents[q].pc) :: p == q)
      && (forall p | p in s.agents ::
            s.agents[p].pc.Pop? || s.agents[p].pc.PopAgain? || s.agents[p].pc.Spawned? || s.agents[p].pc.Running?
            ==> Owns(s.agents[p].pc))
  {
    var s := Reached(acts);
    forall p | p in s.agents ensures Owns(s.agents[p].pc) <==> s.h.owner == Some(p) {
      assert AgentOk(s, p);
    }
  }

  /** First in, first out, nothing lost and nothing twice: what was pushed is what was
      started followed by what is queued; what was executed is what was started, but for a
      task on its way to its group; and when all is quiet everything started was executed. */
  lemma FifoConservation(acts: seq<Action>)
    ensures
      var s := Run(Init(), acts);
      && s.h.pushed == s.h.started + s.tasks
      && s.h.executed <= s.h.started && |s.h.started| <= |s.h.executed| + 1
      && (forall i, j | 0 <= i < j < |s.h.executed| :: s.h.executed[i] != s.h.executed[j])
      && (Quiet(s) ==> s.h.executed == s.h.started)
  {
    var s := Reached(acts);
    assert forall i | 0 <= i < |s.h.executed| :: s.h.executed[i] == s.h.pushed[i];
    if s.h.owner.Some? {
      assert AgentOk(s, s.h.owner.value);
    }
  }

  /** While the queue is paused, at most the calls of pickNextTask that had read a pause
      count of 0 before still start a task, each at most one. */
  lemma PauseBound(acts: seq<Action>)
    requires Run(Init(), acts).pauses > 0
    ensures
      var s := Run(Init(), acts);
      && |s.h.started| <= s.h.mark + |s.h.armed|
      && (forall p | p in s.agents && PastRead(s.agents[p].pc) :: p in s.h.armed && p !in s.h.fired)
  {
    var s := Reached(acts);
    Subset(s.h.fired, s.h.armed);
    forall p | p in s.agents && PastRead(s.agents[p].pc) ensures p in s.h.armed && p !in s.h.fired {
      assert AgentOk(s, p);
    }
  }

  lemma {:induction false} Subset(x: set<nat>, y: set<nat>)
    requires x <= y
    ensures |x| <= |y|
    decreases |x|
  {
    if x != {} {
      var e :| e in x;
      Subset(x - {e}, y - {e});
    }
  }

  // ---------- when tasks are left behind ----------

  lemma StuckState(s: State)
    requires Inv(s) && Quiet(s) && s.pauses == 0
    ensures s.h.owner == None && (s.tasks != [] <==> s.h.lastClear == AfterSecond(true))
  {
    assert s.h.owner.Some? ==> AgentOk(s, s.h.owner.value);
  }

  /** With all calls returned, no task running and no pause, tasks are left in the queue
      exactly when the last clear of the flag was the second one of pickNextTask and found
      a task there: the clear at the end of the branch whose second pop came too late. */
  lemma StuckExactly(acts: seq<Action>)
    requires var s := Run(Init(), acts); Quiet(s) && s.pauses == 0
    ensures
      var s := Run(Init(), acts);
      s.tasks != [] <==> s.h.lastClear == AfterSecond(true)
  {
    var s := Reached(acts);
    StuckState(s);
  }

  /** And what left it there: with all calls returned, no task running and no pause, tasks are
      left exactly when the last clear was the second one of pickNextTask, and before it, while
      its agent held the flag for an empty queue, another pickNextTask found the flag set
      although there was a task, and returned. */
  lemma StuckCause(acts: seq<Action>)
    requires var s := Run(Init(), acts); Quiet(s) && s.pauses == 0
    ensures
      var s := Run(Init(), acts);
      s.tasks != [] <==> s.h.lastClear.AfterSecond? && s.h.missed != {}
  {
    var s := Reached(acts);
    assert s.h.owner.Some? ==> AgentOk(s, s.h.owner.value);
  }

  lemma {:induction false} RunOneMore(s: State, acts: seq<Action>, a: Action)
    ensures Run(s, acts + [a]) == Step(Run(s, acts), a)
    decreases |acts|
  {
    if acts == [] {
      assert Run(s, [a]) == Run(Step(s, a), [a][1..]);
    } else {
      assert (acts + [a])[1..] == acts[1..] + [a];
      RunOneMore(Step(s, acts[0]), acts[1..], a);
    }
  }

  lemma Then(acts: seq<Action>, a: Action) returns (more: seq<Action>)
    ensures more == acts + [a] && Run(Init(), more) == Step(Run(Init(), acts), a)
  {
    RunOneMore(Init(), acts, a);
    more := acts + [a];
  }

  /** The agents of a run, and what else decides how it goes on. */
  predicate At(s: State, tasks: seq<Task>, chosen: bool, agents: map<AgentId, Agent>) {
    s.tasks == tasks && s.chosen == chosen && s.agents == agents && s.pauses == 0
  }

  /** Agent 0, called by resume, finds the queue empty and is about to clear the flag;
      agent 1 then pushes x. */
  lemma RaceBegins(x: Task) returns (acts: seq<Action>)
    ensures At(Run(Init(), acts), [x], true, map[0 := Agent(Clear, None), 1 := Agent(ReadPause, None)])
    ensures Run(Init(), acts).h.pushed == [x]
  {
    acts := Then([], Pause);
    acts := Then(acts, Resume(0));
    acts := Then(acts, Advance(0));
    acts := Then(acts, Advance(0));
    acts := Then(acts, Advance(0));
    acts := Then(acts, Push(1, x));
    assert Run(Init(), acts).agents == map[0 := Agent(Clear, None), 1 := Agent(ReadPause, None)];
  }

  /** Agent 0 sees x in the queue, but agent 1 pulls it first. */
  lemma RaceLost(x: Task) returns (acts: seq<Action>)
    ensures At(Run(Init(), acts), [], true, map[0 := Agent(TryChooseAgain, None), 1 := Agent(Spawned(x), None)])
    ensures Run(Init(), acts).h.pushed == [x]
  {
    acts := RaceBegins(x);
    acts := Then(acts, Advance(0));
    acts := Then(acts, Advance(0));
    acts := Then(acts, Advance(1));
    acts := Then(acts, Advance(1));
    acts := Then(acts, Advance(1));
    assert Run(Init(), acts).agents == map[0 := Agent(TryChooseAgain, None), 1 := Agent(Spawned(x), None)];
  }

  /** Agent 1 runs x to its end. */
  lemma RaceRuns(x: Task) returns (acts: seq<Action>)
    ensures At(Run(Init(), acts), [], false,
               map[0 := Agent(TryChooseAgain, None), 1 := Agent(ReadPause, Some(x.group))])
    ensures Run(Init(), acts).h.pushed == [x]
  {
    acts := RaceLost(x);
    acts := Then(acts, Advance(1));
    acts := Then(acts, Advance(1));
    acts := Then(acts, Advance(1));
    assert Run(Init(), acts).agents == map[0 := Agent(TryChooseAgain, None), 1 := Agent(ReadPause, Some(x.group))];
  }

  /** Agent 0 then takes the slot a second time, in vain. */
  lemma RaceRetried(x: Task) returns (acts: seq<Action>)
    ensures At(Run(Init(), acts), [], true,
               map[0 := Agent(ClearAgain, None), 1 := Agent(ReadPause, Some(x.group))])
    ensures Run(Init(), acts).h.pushed == [x]
  {
    acts := RaceRuns(x);
    acts := Then(acts, Advance(0));
    acts := Then(acts, Advance(0));
    assert Run(Init(), acts).agents == map[0 := Agent(ClearAgain, None), 1 := Agent(ReadPause, Some(x.group))];
  }

  /** Task y was pushed before that last clear. */
  lemma RaceEnds(x: Task, y: Task) returns (acts: seq<Action>)
    requires x != y
    ensures LeftBehind(Run(Init(), acts), y)
  {
    acts := RaceRetried(x);
    acts := Then(acts, Push(2, y));
    acts := Then(acts, Advance(2));
    acts := Then(acts, Advance(2));
    acts := Then(acts, Advance(1));
    acts := Then(acts, Advance(1));
    acts := Then(acts, Advance(0));
  }

  predicate LeftBehind(s: State, y: Task) {
    Quiet(s) && s.pauses == 0 && s.tasks == [y]
  }

  /** There is a run, for any two tasks, that leaves the second in the queue with nobody left
      to run it. */
  lemma TaskLeftBehind(x: Task, y: Task)
    requires x != y
    ensures exists acts :: LeftBehind(Run(Init(), acts), y)
  {
    var acts := RaceEnds(x, y);
    assert LeftBehind(Run(Init(), acts), y);
  }

  /** Inside pickNextTask, past its first access. */
  predicate Picking(pc: Pc) {
    PastRead(pc) || pc.ClearAgain?
  }

  /** No call of pickNextTask is interrupted: an agent inside it makes the next access. */
  ghost predicate Uninterrupted(s: State, acts: seq<Action>)
    decreases |acts|
  {
    acts != [] ==>
      && (forall p | p in s.agents && Picking(s.agents[p].pc) :: acts[0] == Advance(p))
      && Uninterrupted(Step(s, acts[0]), acts[1..])
  }

  /** An agent inside it is before its first clear, or has just cleared for an empty queue. */
  predicate FirstTry(s: State, pc: Pc) {
    Picking(pc) ==>
      && !pc.TryChooseAgain? && !pc.PopAgain? && !pc.ClearAgain?
      && (pc.Clear? || pc.ReadEmpty? ==> s.tasks == [])
  }

  predicate Unraced(s: State) {
    && !s.h.lastClear.AfterSecond?
    && (forall p | p in s.agents :: FirstTry(s, s.agents[p].pc))
    && (forall p, q | p in s.agents && q in s.agents && Picking(s.agents[p].pc) && Picking(s.agents[q].pc) :: p == q)
  }

  lemma UnracedAccess(s: State, p: AgentId)
    requires !s.h.lastClear.AfterSecond? && Enabled(s, Advance(p)) && FirstTry(s, s.agents[p].pc)
    ensures var s' := Apply(s, Advance(p));
      && !s'.h.lastClear.AfterSecond? && s'.agents == s.agents[p := s'.agents[p]] && FirstTry(s', s'.agents[p].pc)
  {
  }

  lemma UnracedCall(s: State, a: Action)
    requires !s.h.lastClear.AfterSecond? && Enabled(s, a) && !a.Advance?
    requires forall p | p in s.agents :: !Picking(s.agents[p].pc)
    ensures var s' := Apply(s, a);
      !s'.h.lastClear.AfterSecond? && forall p | p in s'.agents :: !Picking(s'.agents[p].pc)
  {
  }

  lemma UnracedStep(s: State, a: Action)
    requires Unraced(s) && Enabled(s, a)
    requires forall p | p in s.agents && Picking(s.agents[p].pc) :: a == Advance(p)
    ensures Unraced(Apply(s, a))
  {
    if a.Advance? {
      UnracedAccess(s, a.agent);
    } else {
      UnracedCall(s, a);
    }
  }

  lemma {:induction false} UnracedRun(s: State, acts: seq<Action>)
    requires Unraced(s) && Uninterrupted(s, acts)
    ensures Unraced(Run(s, acts))
    decreases |acts|
  {
    if acts != [] {
      if Enabled(s, acts[0]) { UnracedStep(s, acts[0]); }
      UnracedRun(Step(s, acts[0]), acts[1..]);
    }
  }

  /** With pickNextTask taken as one atomic step no task is ever left behind. */
  lemma AtomicPickLeavesNothing(acts: seq<Action>)
    requires Uninterrupted(Init(), acts)
    requires var s := Run(Init(), acts); Quiet(s) && s.pauses == 0
    ensures Run(Init(), acts).tasks == []
  {
    UnracedRun(Init(), acts);
    StuckExactly(acts);
  }

  // ---------- the queue refines the atomic one ----------

  function Abs(s: State): WorkQueues.WorkQueue<Task> {
    WorkQueues.WorkQueue(s.tasks,
      if s.h.owner.Some? && s.h.owner.value in s.agents then
        match s.agents[s.h.owner.value].pc
        case Spawned(t) => Some(t)
        case Running(t) => Some(t)
        case _ => None
      else None)
  }

  lemma RefinesWorkQueue(s: State, a: Action)
    requires Inv(s)
    ensures WorkQueues.Next(Abs(s), Abs(Step(s, a)))
  {
    assert a.Advance? ==> AgentOk(s, a.agent);
    assert s.h.owner.Some? ==> AgentOk(s, s.h.owner.value);
    if a.Push? && Enabled(s, a) {
      assert Abs(Step(s, a)) == WorkQueues.Push(Abs(s), a.task);
    }
  }
}
