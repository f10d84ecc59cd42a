// The serial queue as its users see it: first in, first out, one task at a time.
// SerialTaskQueue.dfy shows that the real queue refines it, and Scheduler.dfy is written
// over it.

module WorkQueues {
  import opened Basics

  datatype WorkQueue<T> = WorkQueue(waiting: seq<T>, running: Option<T>)

  function Empty<T>(): WorkQueue<T> {
    WorkQueue([], None)
  }

  function Push<T>(q: WorkQueue<T>, t: T): WorkQueue<T> {
    q.(waiting := q.waiting + [t])
  }

  function Start<T>(q: WorkQueue<T>): WorkQueue<T>
    requires q.waiting != []
  {
    WorkQueue(q.waiting[1..], Some(q.waiting[0]))
  }

  function Finish<T>(q: WorkQueue<T>): WorkQueue<T> {
    q.(running := None)
  }

  ghost predicate Next<T(!new)>(q: WorkQueue<T>, q': WorkQueue<T>) {
    || q' == q
    || (exists t :: q' == Push(q, t))
    || (q.running == None && q.waiting != [] && q' == Start(q))
    || (q.running.Some? && q' == Finish(q))
  }
}
