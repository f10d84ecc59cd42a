// The serial queue as the object the program uses, updated in place, one method per atomic
// access. Each is the step of the same name in SerialTaskQueue.dfy and keeps its invariant,
// on which the results of SerialTaskQueueTheorems.dfy rest.

module SerialTaskQueueObjects {
  import opened Basics
  import opened SerialTaskQueues
  import opened SerialTaskQueueTheorems

  class SerialTaskQueue {
    var tasks: seq<Task>
    var taskChosen: bool
    var pauseCount: nat
    var agents: map<AgentId, Agent>   // the calls in progress and the tasks handed over
    var history: History

    function View(): State
      reads this
    {
      State(tasks, taskChosen, pauseCount, agents, history)
    }

    ghost predicate Valid()
      reads this
    {
      Inv(View())
    }

    constructor ()
      ensures Valid() && View() == Init()
    {
      tasks, taskChosen, pauseCount, agents := [], false, 0, map[];
      history := History([], [], [], None, Never, {}, {}, 0, {});
    }

    /** A push makes the task, so that it is none of those before. */
    method PushTask(p: AgentId, t: Task)
      requires Valid() && p !in agents && t !in history.pushed
      modifies this
      ensures Valid() && View() == DoPush(old(View()), p, t)
      ensures tasks == old(tasks) + [t] && agents == old(agents)[p := Agent(ReadPause, None)]
    {
      StepKeepsInv(View(), Push(p, t));
      tasks := tasks + [t];
      agents := agents[p := Agent(ReadPause, None)];
      history := history.(pushed := history.pushed + [t]);
    }

    /** False if the queue was already paused. */
    method PauseQueue() returns (first: bool)
      requires Valid()
      modifies this
      ensures Valid() && View() == DoPause(old(View()))
      ensures pauseCount == old(pauseCount) + 1 && (first <==> old(pauseCount) == 0)
    {
      StepKeepsInv(View(), Pause);
      if pauseCount == 0 {
        var readers := set p | p in agents && PastRead(agents[p].pc);
        history := history.(armed := readers, fired := {}, mark := |history.started|);
      }
      pauseCount := pauseCount + 1;
      first := pauseCount == 1;
    }

    /** True if the call restarts the queue, which its next accesses then do. */
    method ResumeQueue(p: AgentId) returns (restarts: bool)
      requires Valid() && p !in agents && pauseCount > 0
      modifies this
      ensures Valid() && View() == DoResume(old(View()), p)
      ensures pauseCount == old(pauseCount) - 1 && (restarts <==> pauseCount == 0)
      ensures agents == old(agents)[p := Agent(if restarts then ReadPause else Returned, None)]
    {
      StepKeepsInv(View(), Resume(p));
      pauseCount := pauseCount - 1;
      restarts := pauseCount == 0;
      agents := agents[p := Agent(if restarts then ReadPause else Returned, None)];
    }

    method ReadPauseCount(p: AgentId)
      requires Valid() && p in agents && agents[p].pc.ReadPause?
      modifies this
      ensures Valid() && View() == DoReadPause(old(View()), p)
      ensures agents[p].pc == if pauseCount == 0 then TryChoose else Returned
    {
      StepKeepsInv(View(), Advance(p));
      agents := agents[p := agents[p].(pc := if pauseCount == 0 then TryChoose else Returned)];
    }

    method CompareExchangeTaskChosen(p: AgentId)
      requires Valid() && p in agents && (agents[p].pc.TryChoose? || agents[p].pc.TryChooseAgain?)
      modifies this
      ensures Valid() && View() == DoTryChoose(old(View()), p, if old(agents[p].pc.TryChoose?) then Pop else PopAgain)
      ensures taskChosen && (agents[p].pc.Returned? <==> old(taskChosen))
    {
      StepKeepsInv(View(), Advance(p));
      if taskChosen {
        agents := agents[p := agents[p].(pc := Returned)];
        if Late(View()) && tasks != [] {
          history := history.(missed := history.missed + {p});
        }
      } else {
        taskChosen := true;
        agents := agents[p := agents[p].(pc := if agents[p].pc.TryChoose? then Pop else PopAgain)];
        history := history.(owner := Some(p));
      }
    }

    method TryPop(p: AgentId)
      requires Valid() && p in agents && (agents[p].pc.Pop? || agents[p].pc.PopAgain?)
      modifies this
      ensures Valid() && View() == DoPop(old(View()), p, if old(agents[p].pc.Pop?) then Clear else ClearAgain)
      ensures old(tasks) == [] ==> tasks == [] && (agents[p].pc.Clear? || agents[p].pc.ClearAgain?)
      ensures old(tasks) != [] ==> var t, group := old(tasks)[0], old(agents)[p].group;
        && tasks == old(tasks)[1..] && agents[p].group == group
        && agents[p].pc == if group == Some(t.group) then Running(t) else Spawned(t)
    {
      StepKeepsInv(View(), Advance(p));
      if tasks == [] {
        agents := agents[p := agents[p].(pc := if agents[p].pc.Pop? then Clear else ClearAgain)];
        history := history.(missed := {});
      } else {
        var t := tasks[0];
        var sameGroup := agents[p].group == Some(t.group);
        tasks := tasks[1..];
        agents := agents[p := agents[p].(pc := if sameGroup then Running(t) else Spawned(t))];
        history := history.(
          started := history.started + [t],
          executed := if sameGroup then history.executed + [t] else history.executed,
          fired := history.fired + {p});
      }
    }

    /** The clear after a pop that found nothing, the second such clear, or the one that
        ends a task. */
    method ClearTaskChosen(p: AgentId)
      requires Valid() && p in agents && (agents[p].pc.Clear? || agents[p].pc.ClearAgain? || agents[p].pc.Finish?)
      modifies this
      ensures Valid() && View() ==
        if old(agents[p].pc.Clear?) then DoClear(old(View()), p, ReadEmpty, AfterFirst)
        else if old(agents[p].pc.ClearAgain?) then DoClear(old(View()), p, Returned, AfterSecond(old(tasks) != []))
        else DoClear(old(View()), p, ReadPause, AfterTask)
      ensures !taskChosen && tasks == old(tasks)
    {
      StepKeepsInv(View(), Advance(p));
      taskChosen := false;
      if agents[p].pc.Clear? {
        agents := agents[p := agents[p].(pc := ReadEmpty)];
        history := history.(owner := None, lastClear := AfterFirst);
      } else if agents[p].pc.ClearAgain? {
        agents := agents[p := agents[p].(pc := Returned)];
        history := history.(owner := None, lastClear := AfterSecond(tasks != []));
      } else {
        agents := agents[p := agents[p].(pc := ReadPause)];
        history := history.(owner := None, lastClear := AfterTask);
      }
    }

    method ReadTasksEmpty(p: AgentId)
      requires Valid() && p in agents && agents[p].pc.ReadEmpty?
      modifies this
      ensures Valid() && View() == DoReadEmpty(old(View()), p)
      ensures agents[p].pc == if tasks == [] then Returned else TryChooseAgain
    {
      StepKeepsInv(View(), Advance(p));
      agents := agents[p := agents[p].(pc := if tasks == [] then Returned else TryChooseAgain)];
    }

    method BeginTask(p: AgentId)
      requires Valid() && p in agents && agents[p].pc.Spawned?
      modifies this
      ensures Valid() && View() == DoBegin(old(View()), p, old(agents[p].pc.task))
      ensures var t := old(agents)[p].pc.task; agents == old(agents)[p := Agent(Running(t), Some(t.group))]
    {
      StepKeepsInv(View(), Advance(p));
      var t := agents[p].pc.task;
      agents := agents[p := Agent(Running(t), Some(t.group))];
      history := history.(executed := history.executed + [t]);
    }

    method ExecuteTask(p: AgentId)
      requires Valid() && p in agents && agents[p].pc.Running?
      modifies this
      ensures Valid() && View() == DoExecute(old(View()), p)
      ensures agents == old(agents)[p := Agent(Finish, old(agents)[p].group)]
    {
      StepKeepsInv(View(), Advance(p));
      agents := agents[p := agents[p].(pc := Finish)];
    }
  }
}
