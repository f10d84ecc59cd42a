// The holder and its task as objects updated in place, as one thread sees them that nobody
// interrupts: the count of a task is the number of its owners, which are holder objects and
// the shares that no holder has. How the accesses of several threads interleave is the
// subject of WaitingTaskHolder.dfy.

module WaitingTaskHolderObjects {
  import opened Basics

  class WaitingTask {
    var refCount: nat
    var ptr: Option<Exc>
    var fired: nat                              // history: how often it was given to its group
    ghost var holders: set<WaitingTaskHolder>
    ghost var bare: nat                         // shares of list nodes and of callers

    ghost predicate Valid()
      reads this, holders
    {
      && refCount == |holders| + bare
      && forall h | h in holders :: h.task == this
    }

    /** Nobody owns a share. */
    ghost predicate Unowned()
      reads this
    {
      holders == {} && bare == 0
    }

    constructor ()
      ensures Valid() && Unowned() && ptr == None && fired == 0
    {
      refCount, ptr, fired, holders, bare := 0, None, 0, {}, 0;
    }

    /** The new share is the caller's. */
    method IncrementRefCount()
      requires Valid()
      modifies `refCount, `bare
      ensures Valid() && bare == old(bare) + 1
    {
      refCount := refCount + 1;
      bare := bare + 1;
    }

    /** Takes back a share of the caller; zero exactly if it was the last. */
    method DecrementRefCount() returns (left: nat)
      requires Valid() && bare > 0
      modifies `refCount, `bare
      ensures Valid() && bare == old(bare) - 1
      ensures left == 0 <==> Unowned()
    {
      refCount := refCount - 1;
      bare := bare - 1;
      left := refCount;
    }

    /** The first exception wins. */
    method DependentTaskFailed(exc: Option<Exc>)
      modifies `ptr
      ensures ptr == FirstOf(old(ptr), exc)
    {
      if exc.Some? && ptr == None {
        ptr := exc;
      }
    }

    /** A share of the caller becomes the holder's. */
    ghost method Give(h: WaitingTaskHolder)
      requires Valid() && bare > 0 && h !in holders && h.task == this
      modifies `holders, `bare
      ensures Valid() && holders == old(holders) + {h} && bare == old(bare) - 1
    {
      holders := holders + {h};
      bare := bare - 1;
    }

    ghost method TakeBack(h: WaitingTaskHolder)
      requires Valid() && h in holders
      modifies `holders, `bare
      ensures Valid() && holders == old(holders) - {h} && bare == old(bare) + 1
    {
      holders := holders - {h};
      bare := bare + 1;
    }
  }

  class WaitingTaskHolder {
    var task: WaitingTask?

    /** It is an owner of its task, whose count is right. */
    ghost predicate Valid()
      reads this, task, if task != null then task.holders else {}
    {
      task != null ==> task.Valid() && this in task.holders
    }

    constructor Empty()
      ensures Valid() && task == null
    {
      task := null;
    }

    constructor (t: WaitingTask?)
      requires t != null ==> t.Valid()
      modifies t
      ensures Valid() && task == t
      ensures t != null ==>
        t.holders == old(t.holders) + {this} && t.bare == old(t.bare) && t.ptr == old(t.ptr) && t.fired == old(t.fired)
    {
      task := t;
      new;
      if task != null {
        task.IncrementRefCount();
        task.Give(this);
      }
    }

    /** The source is not tested for null: it must hold a task. */
    constructor Copy(other: WaitingTaskHolder)
      requires other.Valid() && other.task != null
      modifies other.task
      ensures Valid() && other.Valid() && task == other.task == old(other.task)
      ensures task.holders == old(other.task.holders) + {this} && task.bare == old(other.task.bare)
      ensures task.ptr == old(other.task.ptr) && task.fired == old(other.task.fired)
    {
      task := other.task;
      new;
      task.IncrementRefCount();
      task.Give(this);
    }

    constructor Move(other: WaitingTaskHolder)
      requires other.Valid()
      modifies other, other.task
      ensures Valid() && task == old(other.task) && other.task == null
      ensures task != null ==>
        && task.holders == old(other.task.holders) - {other} + {this} && task.bare == old(other.task.bare)
        && task.ptr == old(other.task.ptr) && task.fired == old(other.task.fired)
    {
      task := other.task;
      new;
      if task != null {
        task.TakeBack(other);
        task.Give(this);
      }
      other.task := null;
    }

    /** Records the exception, then lets go; the last one to do so fires the task. */
    method DoneWaiting(exc: Option<Exc>)
      requires Valid() && task != null
      modifies this, task
      ensures task == null && old(task).Valid()
      ensures old(task).holders == old(task.holders) - {this} && old(task).bare == old(task.bare)
      ensures old(task).ptr == FirstOf(old(task.ptr), exc)
      ensures old(task).fired == old(task.fired) + (if old(task).Unowned() then 1 else 0)
    {
      if exc.Some? {
        task.DependentTaskFailed(exc);
      }
      var t := task;
      t.TakeBack(this);
      task := null;
      var left := t.DecrementRefCount();
      if left == 0 {
        t.fired := t.fired + 1;
      }
    }

    /** The destructor. */
    method Destroy()
      requires Valid()
      modifies this, task
      ensures task == null
      ensures old(task) != null ==>
        && old(task).Valid()
        && old(task).holders == old(task.holders) - {this} && old(task).bare == old(task.bare)
        && old(task).ptr == old(task.ptr)
        && old(task).fired == old(task.fired) + (if old(task).Unowned() then 1 else 0)
    {
      if task != null {
        DoneWaiting(None);
      }
    }

    /** std::swap of the task pointers: each becomes an owner of the other's task. */
    method Swap(other: WaitingTaskHolder)
      requires Valid() && other.Valid() && other != this
      modifies this, other, task, other.task
      ensures Valid() && other.Valid()
      ensures task == old(other.task) && other.task == old(task)
      ensures other.task != null ==>
        && other.task.holders == (if task == other.task then old(task.holders) else old(task.holders) - {this} + {other})
        && unchanged(other.task`refCount, other.task`bare, other.task`ptr, other.task`fired)
      ensures task != null ==>
        && task.holders ==
             (if task == other.task then old(other.task.holders) else old(other.task.holders) - {other} + {this})
        && unchanged(task`refCount, task`bare, task`ptr, task`fired)
    {
      var mine := task;
      task := other.task;
      other.task := mine;
      if task != other.task {
        if task != null {
          task.holders := task.holders - {other} + {this};
        }
        if other.task != null {
          other.task.holders := other.task.holders - {this} + {other};
        }
      }
    }

    /** The end of both assignments: swap with the local holder, whose destructor then lets the
        old task go. */
    method TakeOver(tmp: WaitingTaskHolder)
      requires Valid() && tmp.Valid() && tmp != this
      modifies this, tmp, task, tmp.task
      ensures Valid() && task == old(tmp.task) && tmp.task == null
      ensures task != null ==>
        && task.holders == old(tmp.task.holders) - {tmp} + {this} && task.bare == old(tmp.task.bare)
        && task.ptr == old(tmp.task.ptr) && task.fired == old(tmp.task.fired)
      ensures old(task) != null && old(task) != task ==>
        && old(task).Valid()
        && old(task).holders == old(task.holders) - {this} && old(task).bare == old(task.bare)
        && old(task).ptr == old(task.ptr)
        && old(task).fired == old(task.fired) + (if old(task).Unowned() then 1 else 0)
    {
      Swap(tmp);
      tmp.Destroy();
    }

    /** Copy assignment by copy and swap: right also for a holder assigned to itself, or to
        another one of the same task, which is never without an owner in between, and for an
        empty left-hand side. */
    method Assign(rhs: WaitingTaskHolder)
      requires Valid() && rhs.Valid() && rhs.task != null
      modifies this, task, rhs.task
      ensures Valid() && rhs.Valid()
      ensures task == rhs.task == old(rhs.task)
      ensures task.holders == old(rhs.task.holders) + {this} && task.bare == old(rhs.task.bare)
      ensures task.ptr == old(rhs.task.ptr) && task.fired == old(rhs.task.fired)
      ensures old(task) != null && old(task) != task ==>
        && old(task).Valid()
        && old(task).holders == old(task.holders) - {this} && old(task).bare == old(task.bare)
        && old(task).ptr == old(task.ptr)
        && old(task).fired == old(task.fired) + (if old(task).Unowned() then 1 else 0)
    {
      var tmp := new WaitingTaskHolder.Copy(rhs);
      TakeOver(tmp);
    }

    /** Move assignment: the other one is left empty, also when its task is this one's; a
        holder moved to itself keeps its task. */
    method MoveAssign(rhs: WaitingTaskHolder)
      requires Valid() && rhs.Valid()
      modifies this, task, rhs, rhs.task
      ensures Valid() && rhs.Valid()
      ensures task == old(rhs.task) && (rhs != this ==> rhs.task == null)
      ensures task != null ==>
        && task.holders == old(rhs.task.holders) - {rhs} + {this} && task.bare == old(rhs.task.bare)
        && task.ptr == old(rhs.task.ptr) && task.fired == old(rhs.task.fired)
      ensures old(task) != null && old(task) != task ==>
        && old(task).Valid()
        && old(task).holders == old(task.holders) - {this} && old(task).bare == old(task.bare)
        && old(task).ptr == old(task.ptr)
        && old(task).fired == old(task.fired) + (if old(task).Unowned() then 1 else 0)
    {
      var tmp := new WaitingTaskHolder.Move(rhs);
      TakeOver(tmp);
    }

    method PresetTaskAsFailed(exc: Option<Exc>)
      requires Valid() && (exc.Some? ==> task != null)
      modifies task
      ensures Valid()
      ensures task != null ==> task.ptr == FirstOf(old(task.ptr), exc)
      ensures task != null ==>
        task.holders == old(task.holders) && task.bare == old(task.bare) && task.fired == old(task.fired)
    {
      if exc.Some? {
        task.DependentTaskFailed(exc);
      }
    }

    method TaskHasFailed() returns (failed: bool)
      requires task != null
      ensures failed <==> task.ptr.Some?
    {
      failed := task.ptr.Some?;
    }

    /** Hands the share to the caller, who has to give it back. */
    method ReleaseNoDecrement() returns (t: WaitingTask?)
      requires Valid()
      modifies this, task
      ensures t == old(task) && task == null
      ensures t != null ==>
        && t.Valid() && t.holders == old(task.holders) - {this} && t.bare == old(task.bare) + 1
        && t.ptr == old(task.ptr) && t.fired == old(task.fired)
    {
      t := task;
      if t != null {
        t.TakeBack(this);
      }
      task := null;
    }
  }
}
