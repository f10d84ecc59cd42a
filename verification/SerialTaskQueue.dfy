// The queue that runs its tasks one at a time. One action is one atomic access of one
// agent: a thread inside push or resume, or the task that was handed a queued task and
// works through the ones after it.

module SerialTaskQueues {
  import opened Basics
  import WorkQueues

  type AgentId = nat

  datatype Task = Task(id: nat, group: nat)

  /** The next atomic access of an agent. */
  datatype Pc =
    | ReadPause               // 0 == m_pauseCount
    | TryChoose               // m_taskChosen.compare_exchange_strong(false, true)
    | Pop                     // m_tasks.try_pop(t)
    | Clear                   // m_taskChosen.store(false): nothing was pulled
    | ReadEmpty               // not m_tasks.empty()
    | TryChooseAgain          // the second compare_exchange_strong
    | PopAgain                // the second try_pop
    | ClearAgain              // the second clear
    | Spawned(task: Task)     // given to a task_group, not begun
    | Running(task: Task)     // t->execute()
    | Finish                  // finishedTask: m_taskChosen.store(false)
    | Returned

  /** An agent, and the group it works for once it runs tasks. */
  datatype Agent = Agent(pc: Pc, group: Option<nat>)

  /** The last write of false to m_taskChosen, and for the second clear of pickNextTask
      whether it left a task in the queue. */
  datatype LastClear = Never | AfterTask | AfterFirst | AfterSecond(left: bool)

  /** History: `pushed`, `started` (pulled from the queue) and `executed` are the tasks in
      that order; `owner` the agent that holds the slot; `armed` the agents past their read
      of m_pauseCount when it last became positive, `fired` those that pulled a task since,
      and `mark` how many tasks had been started by then; `missed` the agents that found the
      flag set, with tasks in the queue, while its owner stood before the second clear. */
  datatype History = History(
    pushed: seq<Task>,
    started: seq<Task>,
    executed: seq<Task>,
    owner: Option<AgentId>,
    lastClear: LastClear,
    armed: set<AgentId>,
    fired: set<AgentId>,
    mark: nat,
    missed: set<AgentId>)

  datatype State = State(
    tasks: seq<Task>,
    chosen: bool,
    pauses: nat,
    agents: map<AgentId, Agent>,
    h: History)

  datatype Action =
    | Push(agent: AgentId, task: Task)   // begins with m_tasks.push
    | Pause                              // ++m_pauseCount
    | Resume(agent: AgentId)             // begins with --m_pauseCount
    | Advance(agent: AgentId)

  function Init(): State {
    State([], false, 0, map[], History([], [], [], None, Never, {}, {}, 0, {}))
  }

  predicate PastRead(pc: Pc) {
    pc.TryChoose? || pc.Pop? || pc.Clear? || pc.ReadEmpty? || pc.TryChooseAgain? || pc.PopAgain?
  }

  predicate Owns(pc: Pc) {
    pc.Pop? || pc.Clear? || pc.PopAgain? || pc.ClearAgain? || pc.Spawned? || pc.Running? || pc.Finish?
  }

  // ---------- the steps ----------

  predicate Enabled(s: State, a: Action) {
    match a
    case Push(p, t) => p !in s.agents && t !in s.h.pushed
    case Pause => true
    // each call of resume balances one of pause
    case Resume(p) => p !in s.agents && s.pauses > 0
    case Advance(p) => p in s.agents && !s.agents[p].pc.Returned?
  }

  function Goto(s: State, p: AgentId, pc: Pc): State
    requires p in s.agents
  {
    s.(agents := s.agents[p := s.agents[p].(pc := pc)])
  }

  function DoPush(s: State, p: AgentId, t: Task): State {
    s.(tasks := s.tasks + [t], agents := s.agents[p := Agent(ReadPause, None)],
       h := s.h.(pushed := s.h.pushed + [t]))
  }

  function DoPause(s: State): State {
    s.(pauses := s.pauses + 1,
       h := if s.pauses > 0 then s.h
            else s.h.(armed := (set p | p in s.agents && PastRead(s.agents[p].pc)), fired := {}, mark := |s.h.started|))
  }

  function DoResume(s: State, p: AgentId): State
    requires s.pauses > 0
  {
    s.(pauses := s.pauses - 1,
       agents := s.agents[p := Agent(if s.pauses == 1 then ReadPause else Returned, None)])
  }

  function DoReadPause(s: State, p: AgentId): State
    requires p in s.agents
  {
    Goto(s, p, if s.pauses == 0 then TryChoose else Returned)
  }

  /** The owner of the slot has found the queue empty twice and not cleared the flag. */
  predicate Late(s: State) {
    s.h.owner.Some? && s.h.owner.value in s.agents && s.agents[s.h.owner.value].pc.ClearAgain?
  }

  function Missing(s: State, p: AgentId): History {
    if Late(s) && s.tasks != [] then s.h.(missed := s.h.missed + {p}) else s.h
  }

  function DoTryChoose(s: State, p: AgentId, next: Pc): State
    requires p in s.agents
  {
    if s.chosen then Goto(s, p, Returned).(h := Missing(s, p))
    else Goto(s, p, next).(chosen := true, h := s.h.(owner := Some(p)))
  }

  /** What happens to a task that was pulled: run on by an agent of the same group,
      otherwise handed over to the task's group. */
  function Taken(agent: Agent, t: Task): Agent {
    if agent.group == Some(t.group) then agent.(pc := Running(t)) else agent.(pc := Spawned(t))
  }

  function DoPop(s: State, p: AgentId, otherwise: Pc): State
    requires p in s.agents
  {
    if s.tasks == [] then Goto(s, p, otherwise).(h := s.h.(missed := {}))
    else
      var t := s.tasks[0];
      var agent := Taken(s.agents[p], t);
      s.(tasks := s.tasks[1..], agents := s.agents[p := agent],
         h := s.h.(started := s.h.started + [t],
                   executed := if agent.pc.Running? then s.h.executed + [t] else s.h.executed,
                   fired := s.h.fired + {p}))
  }

  function DoClear(s: State, p: AgentId, next: Pc, how: LastClear): State
    requires p in s.agents
  {
    Goto(s, p, next).(chosen := false, h := s.h.(owner := None, lastClear := how))
  }

  function DoReadEmpty(s: State, p: AgentId): State
    requires p in s.agents
  {
    Goto(s, p, if s.tasks == [] then Returned else TryChooseAgain)
  }

  function DoBegin(s: State, p: AgentId, t: Task): State
    requires p in s.agents
  {
    s.(agents := s.agents[p := Agent(Running(t), Some(t.group))],
       h := s.h.(executed := s.h.executed + [t]))
  }

  function DoExecute(s: State, p: AgentId): State
    requires p in s.agents
  {
    Goto(s, p, Finish)
  }

  function Apply(s: State, a: Action): State
    requires Enabled(s, a)
  {
    match a
    case Push(p, t) => DoPush(s, p, t)
    case Pause => DoPause(s)
    case Resume(p) => DoResume(s, p)
    case Advance(p) =>
      match s.agents[p].pc
      case ReadPause => DoReadPause(s, p)
      case TryChoose => DoTryChoose(s, p, Pop)
      case Pop => DoPop(s, p, Clear)
      case Clear => DoClear(s, p, ReadEmpty, AfterFirst)
      case ReadEmpty => DoReadEmpty(s, p)
      case TryChooseAgain => DoTryChoose(s, p, PopAgain)
      case PopAgain => DoPop(s, p, ClearAgain)
      case ClearAgain => DoClear(s, p, Returned, AfterSecond(s.tasks != []))
      case Spawned(t) => DoBegin(s, p, t)
      case Running(_) => DoExecute(s, p)
      case Finish => DoClear(s, p, ReadPause, AfterTask)
  }

  function Step(s: State, a: Action): State {
    if Enabled(s, a) then Apply(s, a) else s
  }

  function Run(s: State, acts: seq<Action>): State
    decreases |acts|
  {
    if acts == [] then s else Run(Step(s, acts[0]), acts[1..])
  }

  // ---------- the invariant ----------

  predicate AgentOk(s: State, p: AgentId) {
    p in s.agents ==>
      && (Owns(s.agents[p].pc) <==> s.h.owner == Some(p))
      && (s.pauses > 0 && PastRead(s.agents[p].pc) ==> p in s.h.armed && p !in s.h.fired)
  }

  ghost predicate Agents(s: State) {
    forall p {:trigger AgentOk(s, p)} :: AgentOk(s, p)
  }

  /** Some agent is on its way to look at the queue again. */
  ghost predicate Watched(s: State) {
    exists p :: p in s.agents && Watches(s.agents[p].pc)
  }

  predicate Watches(pc: Pc) {
    pc.ReadPause? || pc.TryChoose? || pc.ReadEmpty? || pc.TryChooseAgain?
  }

  predicate Order(s: State) {
    && s.h.pushed == s.h.started + s.tasks
    && s.h.started == s.h.executed +
         (if s.h.owner.Some? && s.h.owner.value in s.agents && s.agents[s.h.owner.value].pc.Spawned?
          then [s.agents[s.h.owner.value].pc.task] else [])
    && (forall i, j | 0 <= i < j < |s.h.pushed| :: s.h.pushed[i] != s.h.pushed[j])
  }

  predicate Slot(s: State) {
    && (s.chosen <==> s.h.owner.Some?)
    && (s.h.owner.Some? ==> s.h.owner.value in s.agents)
  }

  predicate Paused(s: State) {
    s.pauses > 0 ==> s.h.fired <= s.h.armed && |s.h.started| == s.h.mark + |s.h.fired|
  }

  /** A task is never left alone, except by the second clear of pickNextTask. */
  ghost predicate Attended(s: State) {
    && (s.tasks != [] && s.pauses == 0 && s.h.owner == None && !Watched(s) ==>
          s.h.lastClear == AfterSecond(true))
    && (s.h.lastClear == AfterSecond(true) && s.h.owner == None ==> s.tasks != [])
  }

  /** Before and after that second clear: a task is in the queue and nobody on the way to look
      at it only if somebody missed it, and whoever missed one left it there. */
  ghost predicate Blamed(s: State) {
    Late(s) || (s.h.owner == None && s.h.lastClear.AfterSecond?) ==>
      && (s.tasks != [] && s.pauses == 0 && !Watched(s) ==> s.h.missed != {})
      && (s.h.missed != {} ==> s.tasks != [])
  }

  ghost predicate Inv(s: State) {
    Agents(s) && Slot(s) && Order(s) && Paused(s) && Attended(s) && Blamed(s)
  }
}
