// What the serial queue does in terms of the accesses of a run alone: what was pushed, what was
// executed and in which group, what was started during a pause, and what was left behind.

module SerialTaskQueueRuns {
  import opened Basics
  import opened SerialTaskQueues
  import opened SerialTaskQueueTheorems

  // ---------- what was pushed and executed ----------

  /** The tasks that a run pushes, in that order. */
  function Pushes(s: State, acts: seq<Action>): seq<Task>
    decreases |acts|
  {
    if acts == [] then [] else Pushed(s, acts[0]) + Pushes(Step(s, acts[0]), acts[1..])
  }

  function Pushed(s: State, a: Action): seq<Task> {
    if a.Push? && Enabled(s, a) then [a.task] else []
  }

  /** A task that is executed, and the group in which it is. */
  datatype Execution = Execution(task: Task, group: Option<nat>)

  /** The executions of a run, in that order. */
  function Executions(s: State, acts: seq<Action>): seq<Execution>
    decreases |acts|
  {
    if acts == [] then [] else Executed(s, acts[0]) + Executions(Step(s, acts[0]), acts[1..])
  }

  function Executed(s: State, a: Action): seq<Execution> {
    if a.Advance? && a.agent in s.agents && s.agents[a.agent].pc.Running?
    then [Execution(s.agents[a.agent].pc.task, s.agents[a.agent].group)]
    else []
  }

  function Tasks(es: seq<Execution>): seq<Task> {
    seq(|es|, i requires 0 <= i < |es| => es[i].task)
  }

  lemma TasksOfBoth(x: seq<Execution>, y: seq<Execution>)
    ensures Tasks(x + y) == Tasks(x) + Tasks(y)
  {
  }

  /** An agent that has a task, handed over or begun. */
  predicate Has(agent: Agent, t: Task) {
    agent.pc == Spawned(t) || agent.pc == Running(t)
  }

  /** The task that was pulled and not executed yet. */
  function InHand(s: State): seq<Task> {
    if s.h.owner.Some? && s.h.owner.value in s.agents then
      match s.agents[s.h.owner.value].pc
      case Spawned(t) => [t]
      case Running(t) => [t]
      case _ => []
    else []
  }

  function Pulled(s: State, a: Action): seq<Task> {
    if Pulls(s, a) then [s.tasks[0]] else []
  }

  predicate Pulls(s: State, a: Action) {
    && a.Advance? && a.agent in s.agents && (s.agents[a.agent].pc.Pop? || s.agents[a.agent].pc.PopAgain?)
    && s.tasks != []
  }

  lemma CallHands(s: State, a: Action)
    requires Slot(s) && Enabled(s, a) && !a.Advance?
    ensures InHand(Apply(s, a)) == InHand(s) && Apply(s, a).h.started == s.h.started
  {
  }

  lemma AccessHands(s: State, p: AgentId)
    requires Slot(s) && AgentOk(s, p) && Enabled(s, Advance(p))
    requires s.h.owner.Some? ==> AgentOk(s, s.h.owner.value)
    ensures var s' := Apply(s, Advance(p));
      && InHand(s) + Pulled(s, Advance(p)) == Tasks(Executed(s, Advance(p))) + InHand(s')
      && s'.h.started == s.h.started + Pulled(s, Advance(p))
  {
  }

  /** What is pulled is in hand until it is executed. */
  lemma StepHands(s: State, a: Action)
    requires Inv(s)
    ensures InHand(s) + Pulled(s, a) == Tasks(Executed(s, a)) + InHand(Step(s, a))
    ensures Step(s, a).h.started == s.h.started + Pulled(s, a)
  {
    if Enabled(s, a) {
      if a.Advance? {
        assert AgentOk(s, a.agent) && (s.h.owner.Some? ==> AgentOk(s, s.h.owner.value));
        AccessHands(s, a.agent);
      } else {
        CallHands(s, a);
      }
    }
  }

  lemma Regrouped<T>(started: seq<T>, before: seq<T>, had: seq<T>, pulled: seq<T>, done: seq<T>, has: seq<T>)
    requires started == before + had && had + pulled == done + has
    ensures started + pulled == (before + done) + has
  {
    assert before + had + pulled == before + (had + pulled);
    assert before + (done + has) == before + done + has;
  }

  lemma {:induction false} RunPushes(s: State, acts: seq<Action>)
    ensures Run(s, acts).h.pushed == s.h.pushed + Pushes(s, acts)
    decreases |acts|
  {
    if acts != [] {
      StepPushes(s, acts[0]);
      RunPushes(Step(s, acts[0]), acts[1..]);
    }
  }

  lemma StepPushes(s: State, a: Action)
    ensures Step(s, a).h.pushed == s.h.pushed + Pushed(s, a)
  {
  }

  lemma {:induction false} RunHands(s: State, acts: seq<Action>, before: seq<Task>)
    requires Inv(s) && s.h.started == before + InHand(s)
    ensures Run(s, acts).h.started == before + Tasks(Executions(s, acts)) + InHand(Run(s, acts))
    decreases |acts|, 1
  {
    if acts == [] {
      assert before + [] == before;
    } else {
      HandsOn(s, acts[0], before);
      RunHandsFrom(s, acts, before);
    }
  }

  lemma {:induction false} RunHandsFrom(s: State, acts: seq<Action>, before: seq<Task>)
    requires acts != [] && Inv(Step(s, acts[0]))
    requires Step(s, acts[0]).h.started == before + Tasks(Executed(s, acts[0])) + InHand(Step(s, acts[0]))
    ensures Run(s, acts).h.started == before + Tasks(Executions(s, acts)) + InHand(Run(s, acts))
    decreases |acts|, 0
  {
    var now, later := Executed(s, acts[0]), Executions(Step(s, acts[0]), acts[1..]);
    RunHands(Step(s, acts[0]), acts[1..], before + Tasks(now));
    TasksOfBoth(now, later);
    assert before + Tasks(now) + Tasks(later) == before + (Tasks(now) + Tasks(later));
  }

  lemma HandsOn(s: State, a: Action, before: seq<Task>)
    requires Inv(s) && s.h.started == before + InHand(s)
    ensures Inv(Step(s, a)) && Step(s, a).h.started == before + Tasks(Executed(s, a)) + InHand(Step(s, a))
  {
    StepHands(s, a);
    StepKeepsInv(s, a);
    Regrouped(s.h.started, before, InHand(s), Pulled(s, a), Tasks(Executed(s, a)), InHand(Step(s, a)));
  }

  /** What a run pushes is what it executes, followed by at most one task that an agent has, and by
      the queue: first in, first out, nothing lost and nothing twice. */
  lemma FifoOfRun(acts: seq<Action>)
    ensures var s := Run(Init(), acts);
      exists hand ::
        && Pushes(Init(), acts) == Tasks(Executions(Init(), acts)) + hand + s.tasks
        && |hand| <= 1
        && (forall p, t | p in s.agents && Has(s.agents[p], t) :: hand == [t])
        && (hand != [] ==> exists p :: p in s.agents && Has(s.agents[p], hand[0]))
  {
    var s := Reached(acts);
    InitInv();
    RunHands(Init(), acts, []);
    RunPushes(Init(), acts);
    assert [] + Tasks(Executions(Init(), acts)) == Tasks(Executions(Init(), acts));
    assert Init().h.pushed + Pushes(Init(), acts) == Pushes(Init(), acts);
    forall p, t | p in s.agents && Has(s.agents[p], t) ensures InHand(s) == [t] {
      assert AgentOk(s, p);
    }
    if InHand(s) != [] {
      assert Has(s.agents[s.h.owner.value], InHand(s)[0]);
    }
    assert Pushes(Init(), acts) == Tasks(Executions(Init(), acts)) + InHand(s) + s.tasks;
  }

  lemma InitInv()
    ensures Inv(Init())
  {
  }

  // ---------- in which group ----------

  /** Whoever runs a task works for its group. */
  predicate InGroup(agent: Agent) {
    agent.pc.Running? ==> agent.group == Some(agent.pc.task.group)
  }

  ghost predicate InGroups(s: State) {
    forall p | p in s.agents :: InGroup(s.agents[p])
  }

  lemma {:induction false} RunInGroups(s: State, acts: seq<Action>)
    requires InGroups(s)
    ensures InGroups(Run(s, acts))
    ensures forall i | 0 <= i < |Executions(s, acts)| ::
      Executions(s, acts)[i].group == Some(Executions(s, acts)[i].task.group)
    decreases |acts|
  {
    if acts != [] {
      StepInGroups(s, acts[0]);
      RunInGroups(Step(s, acts[0]), acts[1..]);
    }
  }

  lemma StepInGroups(s: State, a: Action)
    requires InGroups(s)
    ensures InGroups(Step(s, a))
  {
  }

  /** Every task is executed in the group it was pushed with. */
  lemma OwnGroup(acts: seq<Action>)
    ensures forall i | 0 <= i < |Executions(Init(), acts)| ::
      Executions(Init(), acts)[i].group == Some(Executions(Init(), acts)[i].task.group)
    ensures forall p, t | p in Run(Init(), acts).agents && Run(Init(), acts).agents[p].pc == Running(t) ::
      Run(Init(), acts).agents[p].group == Some(t.group)
  {
    RunInGroups(Init(), acts);
  }

  /** A task that is pulled is handed over exactly when it is of another group than its agent's. */
  lemma HandedOver(s: State, p: AgentId)
    requires Pulls(s, Advance(p))
    ensures var s', t, g := Step(s, Advance(p)), s.tasks[0], s.agents[p].group;
      && s'.tasks == s.tasks[1..] && s'.agents.Keys == s.agents.Keys
      && s'.agents[p].group == g
      && (g == Some(t.group) ==> s'.agents[p].pc == Running(t))
      && (g != Some(t.group) ==> s'.agents[p].pc == Spawned(t))
      && (forall q | q in s.agents && q != p :: s'.agents[q] == s.agents[q])
  {
  }

  /** And an agent changes its group only when it begins a task that was handed over. */
  lemma GroupStays(s: State, a: Action, p: AgentId)
    requires p in s.agents
    ensures p in Step(s, a).agents
    ensures Step(s, a).agents[p].group != s.agents[p].group ==>
      && a == Advance(p) && s.agents[p].pc.Spawned?
      && Step(s, a).agents[p] == Agent(Running(s.agents[p].pc.task), Some(s.agents[p].pc.task.group))
  {
  }

  // ---------- pauses ----------

  /** How often a run pauses the queue more often than it resumes it. */
  function Pauses(s: State, acts: seq<Action>): int
    decreases |acts|
  {
    if acts == [] then 0
    else
      (if !Enabled(s, acts[0]) then 0 else if acts[0].Pause? then 1 else if acts[0].Resume? then -1 else 0)
      + Pauses(Step(s, acts[0]), acts[1..])
  }

  lemma {:induction false} PausesAre(s: State, acts: seq<Action>)
    ensures Run(s, acts).pauses == s.pauses + Pauses(s, acts)
    decreases |acts|
  {
    if acts != [] {
      PausesAre(Step(s, acts[0]), acts[1..]);
    }
  }

  /** How many tasks a run pulls. */
  function Starts(s: State, acts: seq<Action>): nat
    decreases |acts|
  {
    if acts == [] then 0 else |Pulled(s, acts[0])| + Starts(Step(s, acts[0]), acts[1..])
  }

  /** The queue is paused all the way. */
  ghost predicate StaysPaused(s: State, acts: seq<Action>)
    decreases |acts|
  {
    s.pauses > 0 && (acts != [] ==> StaysPaused(Step(s, acts[0]), acts[1..]))
  }

  lemma PausedStep(s: State, a: Action)
    requires s.pauses > 0
    ensures Step(s, a).h.armed == s.h.armed && Step(s, a).h.mark == s.h.mark
    ensures |Step(s, a).h.started| == |s.h.started| + |Pulled(s, a)|
  {
  }

  lemma {:induction false} PausedRun(s: State, acts: seq<Action>)
    requires StaysPaused(s, acts)
    ensures var s' := Run(s, acts);
      s'.pauses > 0 && s'.h.armed == s.h.armed && s'.h.mark == s.h.mark
      && |s'.h.started| == |s.h.started| + Starts(s, acts)
    decreases |acts|
  {
    if acts != [] {
      PausedStep(s, acts[0]);
      PausedRun(Step(s, acts[0]), acts[1..]);
    }
  }

  /** However long a pause lasts, the tasks pulled in it are no more than the agents that were past
      their read of the pause count when it began. */
  lemma PauseStarts(before: seq<Action>, after: seq<Action>)
    requires Run(Init(), before).pauses == 0 && StaysPaused(Step(Run(Init(), before), Pause), after)
    ensures var s := Run(Init(), before);
      Starts(Step(s, Pause), after) <= |set p | p in s.agents && PastRead(s.agents[p].pc)|
  {
    var s := Reached(before);
    StepKeepsInv(s, Pause);
    PausedRun(Step(s, Pause), after);
    RunKeepsInv(Step(s, Pause), after);
    var s' := Run(Step(s, Pause), after);
    assert s'.h.armed == set p | p in s.agents && PastRead(s.agents[p].pc);
    assert Paused(s');
    Subset(s'.h.fired, s'.h.armed);
  }

  // ---------- what is left behind ----------

  /** The k-th access is the second clear of pickNextTask with a task in the queue, and the flag is
      not set again after it. */
  ghost predicate LeavesTask(acts: seq<Action>, k: nat) {
    && k < |acts| && acts[k].Advance?
    && var s, p := Run(Init(), acts[..k]), acts[k].agent;
    && p in s.agents && s.agents[p].pc.ClearAgain? && s.tasks != []
    && forall j: nat {:trigger acts[..j]} | k < j <= |acts| :: !Run(Init(), acts[..j]).chosen
  }

  lemma AsAppended(acts: seq<Action>)
    requires acts != []
    ensures acts == acts[..|acts| - 1] + [acts[|acts| - 1]]
  {
  }

  lemma OneLess(acts: seq<Action>)
    requires acts != []
    ensures Run(Init(), acts) == Step(Run(Init(), acts[..|acts| - 1]), acts[|acts| - 1])
  {
    AsAppended(acts);
    RunOneMore(Init(), acts[..|acts| - 1], acts[|acts| - 1]);
  }

  lemma StillLeft(acts: seq<Action>, k: nat)
    requires acts != [] && LeavesTask(acts[..|acts| - 1], k) && !Run(Init(), acts).chosen
    ensures LeavesTask(acts, k)
  {
    var less := acts[..|acts| - 1];
    assert acts[..k] == less[..k];
    forall j: nat | k < j <= |acts| ensures !Run(Init(), acts[..j]).chosen {
      if j < |acts| {
        assert acts[..j] == less[..j];
      } else {
        assert acts[..j] == acts;
      }
    }
  }

  /** Where the history says so, such an access there was. */
  lemma {:induction false} LeftBySome(acts: seq<Action>) returns (k: nat)
    requires var s := Run(Init(), acts); !s.chosen && s.h.lastClear == AfterSecond(true)
    ensures LeavesTask(acts, k)
    decreases |acts|
  {
    var less, a := acts[..|acts| - 1], acts[|acts| - 1];
    var s := Reached(less);
    OneLess(acts);
    if !s.chosen && s.h.lastClear == AfterSecond(true) {
      k := LeftBySome(less);
      StillLeft(acts, k);
    } else {
      assert a.Advance? ==> AgentOk(s, a.agent);
      k := |acts| - 1;
      assert acts[..|acts|] == acts;
    }
  }

  /** And after such an access the task stays. */
  lemma {:induction false} LeftStays(acts: seq<Action>, k: nat)
    requires LeavesTask(acts, k)
    ensures Run(Init(), acts).tasks != []
    decreases |acts|
  {
    var less, a := acts[..|acts| - 1], acts[|acts| - 1];
    var s := Reached(less);
    OneLess(acts);
    assert a.Advance? ==> AgentOk(s, a.agent);
    if k < |acts| - 1 {
      assert acts[..k] == less[..k];
      forall j: nat | k < j <= |less| ensures !Run(Init(), less[..j]).chosen {
        assert less[..j] == acts[..j];
      }
      LeftStays(less, k);
      assert less[..|less|] == less;
    }
  }

  /** With all calls returned, no task running and no pause, tasks are left in the queue exactly
      when some access of the run was a second clear of pickNextTask with a task in the queue, and
      nobody took the flag after it. */
  lemma StuckByAccess(acts: seq<Action>)
    requires var s := Run(Init(), acts); Quiet(s) && s.pauses == 0
    ensures Run(Init(), acts).tasks != [] <==> exists k: nat :: LeavesTask(acts, k)
  {
    var s := Reached(acts);
    StuckState(s);
    if s.tasks != [] {
      var k := LeftBySome(acts);
    }
    if k: nat :| LeavesTask(acts, k) {
      LeftStays(acts, k);
    }
  }

  /** The j-th access is one of pickNextTask by q that finds the flag set although a task is in the
      queue, while the agent that set it stands before its second clear. */
  predicate MissesTask(acts: seq<Action>, j: nat, q: AgentId) {
    && j < |acts| && acts[j] == Advance(q)
    && var s := Run(Init(), acts[..j]);
    && q in s.agents && (s.agents[q].pc.TryChoose? || s.agents[q].pc.TryChooseAgain?) && s.chosen && s.tasks != []
    && exists p :: p in s.agents && s.agents[p].pc.ClearAgain?
  }

  /** Whoever is on record as having missed a task did so by such an access. */
  lemma {:induction false} MissedBySome(acts: seq<Action>, q: AgentId) returns (j: nat)
    requires q in Run(Init(), acts).h.missed
    ensures MissesTask(acts, j, q)
    decreases |acts|
  {
    var less := acts[..|acts| - 1];
    OneLess(acts);
    if q in Run(Init(), less).h.missed {
      j := MissedBySome(less, q);
      assert less[..j] == acts[..j];
    } else {
      j := |acts| - 1;
      var s := Run(Init(), less);
      assert s.h.owner.value in s.agents && s.agents[s.h.owner.value].pc.ClearAgain?;
    }
  }

  /** And a task is left in the end only if there was one. */
  lemma StuckByMiss(acts: seq<Action>)
    requires var s := Run(Init(), acts); Quiet(s) && s.pauses == 0 && s.tasks != []
    ensures exists j: nat, q :: MissesTask(acts, j, q)
  {
    StuckCause(acts);
    var q :| q in Run(Init(), acts).h.missed;
    var j := MissedBySome(acts, q);
  }
}
