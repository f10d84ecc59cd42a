// The serial queues inside the scheduler: who waits in a queue and who holds it. Kept by
// every step.

module SchedulerQueues {
  import opened Basics
  import opened ModuleGraphs
  import opened Schedulers
  import opened SchedulerPrefetch
  import WQ = WorkQueues

  /** A node with a serial queue waits in it while Queued and holds it while inside; it may
      hold it a little longer. */
  ghost predicate SeatAt(c: Config, s: State, n: nat)
    requires Valid(c) && Fits(c, s)
  {
    n < |s.nodes| ==>
      match c.queue[n]
      case None => !s.nodes[n].phase.Queued?
      case Some(q) =>
        && (s.nodes[n].phase.Queued? <==> n in s.queues[q].waiting)
        && (Inside(s.nodes[n]) ==> s.queues[q].running == Some(n))
  }

  /** A queue has only nodes of its own, each at most once. */
  ghost predicate QueueAt(c: Config, s: State, q: nat)
    requires Valid(c) && Fits(c, s)
  {
    q < |s.queues| ==>
      && (forall n | n in s.queues[q].waiting :: n < |c.queue| && c.queue[n] == Some(q))
      && (forall j, k | 0 <= j < k < |s.queues[q].waiting| ::
            s.queues[q].waiting[j] != s.queues[q].waiting[k])
      && (s.queues[q].running.Some? ==>
            var n := s.queues[q].running.value; n < |c.queue| && c.queue[n] == Some(q))
  }

  ghost predicate Queues(c: Config, s: State)
    requires Valid(c) && Fits(c, s)
  {
    && (forall n {:trigger SeatAt(c, s, n)} :: SeatAt(c, s, n))
    && (forall q {:trigger QueueAt(c, s, q)} :: QueueAt(c, s, q))
  }

  /** Nobody enters or leaves a queue. */
  lemma SeatsStay(c: Config, s: State, s': State)
    requires Valid(c) && Fits(c, s) && Fits(c, s') && Queues(c, s) && s'.queues == s.queues
    requires forall n | 0 <= n < |s.nodes| ::
      && (s'.nodes[n].phase.Queued? <==> s.nodes[n].phase.Queued?)
      && (Inside(s'.nodes[n]) ==> Inside(s.nodes[n]))
    ensures Queues(c, s')
  {
    forall n ensures SeatAt(c, s', n) {
      assert SeatAt(c, s, n);
    }
    forall q ensures QueueAt(c, s', q) {
      assert QueueAt(c, s, q);
    }
  }

  lemma ExecuteKeepsQueues(c: Config, s: State, n: nat)
    requires Valid(c) && Fits(c, s) && Queues(c, s) && Enabled(c, s, Execute(n))
    ensures Queues(c, DoExecute(c, s, n))
  {
    var s' := DoExecute(c, s, n);
    assert SeatAt(c, s, n);
    forall m ensures SeatAt(c, s', m) {
      assert SeatAt(c, s, m);
    }
    forall q ensures QueueAt(c, s', q) {
      assert QueueAt(c, s, q);
    }
  }

  lemma StartKeepsQueues(c: Config, s: State, q: nat)
    requires Valid(c) && Fits(c, s) && Queues(c, s) && Enabled(c, s, StartQueued(q))
    ensures Queues(c, DoStartQueued(s, q))
  {
    var s' := DoStartQueued(s, q);
    var n := s.queues[q].waiting[0];
    assert QueueAt(c, s, q) && SeatAt(c, s, n);
    assert n in s.queues[q].waiting;
    assert s.queues[q].waiting == [n] + s'.queues[q].waiting;
    forall m ensures SeatAt(c, s', m) {
      assert SeatAt(c, s, m);
    }
    forall r ensures QueueAt(c, s', r) {
      assert QueueAt(c, s, r);
    }
  }

  lemma LeaveKeepsQueues(c: Config, s: State, q: nat)
    requires Valid(c) && Fits(c, s) && Queues(c, s) && Enabled(c, s, Action.Leave(q))
    ensures Queues(c, DoLeave(s, q))
  {
    var s' := DoLeave(s, q);
    forall m ensures SeatAt(c, s', m) {
      assert SeatAt(c, s, m);
    }
    forall r ensures QueueAt(c, s', r) {
      assert QueueAt(c, s, r);
    }
  }

  /** A node that a list lets go is still before its queue. */
  lemma LetGoSeat(c: Config, s: State, n: nat)
    requires Valid(c) && Fits(c, s) && Prefetch(c, s) && n < |s.nodes| && s.nodes[n].refs > 0
    ensures s.nodes[n].phase.Fetch? || s.nodes[n].phase.Prefetched?
  {
    assert NodeAt(c, s, n);
  }

  lemma InitQueues(c: Config)
    requires Valid(c)
    ensures Queues(c, Init(c))
  {
  }

  lemma FetchKeepsQueues(c: Config, s: State, a: Action)
    requires Valid(c) && Fits(c, s) && Prefetch(c, s) && Queues(c, s) && Enabled(c, s, a)
    requires a.FetchAdd? || a.FetchStart? || a.FetchEnd? || a.Work? || a.Announce? || a.Release?
    ensures Fits(c, Apply(c, s, a)) && Queues(c, Apply(c, s, a))
  {
    ApplyFits(c, s, a);
    if a.Release? && a.waiter.Getter? {
      LetGoSeat(c, s, a.waiter.node);
    }
    SeatsStay(c, s, Apply(c, s, a));
  }

  lemma PathKeepsQueues(c: Config, s: State, a: Action)
    requires Valid(c) && Fits(c, s) && Queues(c, s) && Enabled(c, s, a)
    requires a.Take? || a.Recheck? || a.Look? || a.LaunchPath? || a.LaunchEnd? || a.PathRequest? || a.PathAsk?
          || a.StartFilter? || a.PathFire? || a.PathEnd? || a.EventFire?
    ensures Fits(c, Apply(c, s, a)) && Queues(c, Apply(c, s, a))
  {
    ApplyFits(c, s, a);
    SeatsStay(c, s, Apply(c, s, a));
  }

  lemma StepKeepsQueues(c: Config, s: State, a: Action)
    requires Valid(c) && Fits(c, s) && Prefetch(c, s) && Queues(c, s) && Enabled(c, s, a)
    ensures Fits(c, Apply(c, s, a)) && Queues(c, Apply(c, s, a))
  {
    ApplyFits(c, s, a);
    if a.Execute? {
      ExecuteKeepsQueues(c, s, a.node);
    } else if a.StartQueued? {
      StartKeepsQueues(c, s, a.queue);
    } else if a.Leave? {
      LeaveKeepsQueues(c, s, a.queue);
    } else if a.FetchAdd? || a.FetchStart? || a.FetchEnd? || a.Work? || a.Announce? || a.Release? {
      FetchKeepsQueues(c, s, a);
    } else {
      PathKeepsQueues(c, s, a);
    }
  }

  // ---------- what the queues give ----------

  /** At most one node of a serial queue runs at any time, and the queue starts only nodes
      that wait for it. */
  lemma QueueExcludes(c: Config, s: State, m: nat, n: nat)
    requires Valid(c) && Fits(c, s) && Queues(c, s)
    requires m < |s.nodes| && n < |s.nodes| && c.queue[m].Some? && c.queue[m] == c.queue[n]
    requires s.nodes[m].phase.Running? || s.nodes[m].phase.Worked?
    requires s.nodes[n].phase.Running? || s.nodes[n].phase.Worked?
    ensures m == n
  {
    assert SeatAt(c, s, m) && SeatAt(c, s, n);
  }

  lemma HeadIsQueued(c: Config, s: State, q: nat)
    requires Valid(c) && Fits(c, s) && Queues(c, s) && q < |s.queues| && s.queues[q].waiting != []
    ensures s.queues[q].waiting[0] < |s.nodes| && s.nodes[s.queues[q].waiting[0]].phase.Queued?
  {
    assert s.queues[q].waiting[0] in s.queues[q].waiting;
    assert QueueAt(c, s, q) && SeatAt(c, s, s.queues[q].waiting[0]);
  }
}
