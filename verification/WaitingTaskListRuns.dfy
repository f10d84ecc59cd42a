// What the lock-free list does as somebody sees it who watches the accesses of a run: which calls
// of add were made, what doneWaiting was given, and whom the list let go with what.

module WaitingTaskListRuns {
  import opened Basics
  import opened WaitingTaskLists
  import opened WaitingTaskListTheorems
  import WR = WaitingTaskListRefinements
  import WL = WaitLists

  /** What was seen: how many resets there were, the number of them before each call of add, the
      argument of doneWaiting after each number of them, the exceptions with which each caller's
      holder was let go; how many nodes createNode handed out since the last reset, how many are
      preallocated, and whether the 32-bit counter was ever used up. */
  datatype Log = Log(
    resets: nat,
    added: map<CallId, nat>,
    given: map<nat, Option<Exc>>,
    letGo: map<CallId, seq<Option<Exc>>>,
    created: nat,
    size: nat,
    overflow: bool)

  function Nothing(size: nat): Log {
    Log(0, map[], map[], map[], 0, size, false)
  }

  /** Whom an access lets go. */
  function LetsGo(s: State, a: Action): Option<CallId> {
    if !a.Advance? || !Enabled(s, a) then None
    else
      match s.calls[a.call].pc
      case AddBypass => Some(a.call)
      case Drop(n, _) => Some(s.mem[n].task)
      case _ => None
  }

  predicate Creates(s: State, a: Action) {
    a.Advance? && Enabled(s, a) && s.calls[a.call].pc.AddCreate?
  }

  function Times(log: Log, c: CallId): seq<Option<Exc>> {
    if c in log.letGo then log.letGo[c] else []
  }

  function Seen(s: State, a: Action, log: Log): Log {
    if !Enabled(s, a) then log
    else
      match a
      case CallAdd(c) => log.(added := log.added[c := log.resets])
      case CallDone(_, arg) => log.(given := log.given[log.resets := arg])
      case Reset =>
        var used := CacheIndex(log.created);
        log.(resets := log.resets + 1, created := 0, size := if used > log.size then used else log.size)
      case Advance(_, _) =>
        var more := if Creates(s, a)
                    then log.(created := log.created + 1, overflow := log.overflow || log.created >= WORD) else log;
        if LetsGo(s, a).Some?
        then more.(letGo := log.letGo[LetsGo(s, a).value := Times(log, LetsGo(s, a).value) + [s.exc]])
        else more
  }

  function Watched(s: State, acts: seq<Action>, log: Log): Log
    decreases |acts|
  {
    if acts == [] then log else Watched(Step(s, acts[0]), acts[1..], Seen(s, acts[0], log))
  }

  // ---------- the log is what the state keeps ----------

  predicate Counts(s: State, log: Log) {
    && log.resets == s.epoch && log.created == s.created && log.size == s.cacheSize && log.overflow == s.wrapped
  }

  /** The calls of add. */
  predicate AddAt(s: State, log: Log, c: CallId) {
    && (c in log.added <==> c in s.calls && s.calls[c].adds)
    && (c in log.added ==> log.added[c] == s.calls[c].epoch)
    && (c in log.added ==> Times(log, c) == s.calls[c].drops)
    && (c !in log.added ==> Times(log, c) == [])
    && (c in log.added && s.calls[c].drops != [] ==> log.added[c] in log.given)
  }

  predicate GivenAt(s: State, log: Log, k: nat) {
    && (k in log.given ==> k <= s.epoch && k < |s.args| && s.args[k] == log.given[k])
    && (k == s.epoch ==> (k in log.given <==> !s.phase.Open?))
  }

  ghost predicate Matches(s: State, log: Log) {
    && Counts(s, log)
    && (forall c {:trigger AddAt(s, log, c)} :: AddAt(s, log, c))
    && (forall k: nat {:trigger GivenAt(s, log, k)} :: GivenAt(s, log, k))
  }

  /** An access of c changes no other call, and of c neither what it is nor its epoch. */
  predicate OnlyOf(s: State, s': State, c: CallId) {
    && c in s.calls && c in s'.calls && s'.calls == s.calls[c := s'.calls[c]]
    && s'.calls[c].adds == s.calls[c].adds && s'.calls[c].epoch == s.calls[c].epoch
    && s'.epoch == s.epoch && s'.args == s.args && s'.cacheSize == s.cacheSize && (s'.phase.Open? <==> s.phase.Open?)
  }

  lemma AdderOnlyOf(s: State, c: CallId, address: nat)
    requires Enabled(s, Advance(c, address))
    requires var pc := s.calls[c].pc; pc.AddCheck? || pc.AddBypass? || pc.AddCreate? || pc.AddInit? || pc.AddSwap?
    ensures var s' := Apply(s, Advance(c, address));
      && OnlyOf(s, s', c)
      && s'.calls[c].drops == s.calls[c].drops + (if s.calls[c].pc.AddBypass? then [s.exc] else [])
  {
  }

  lemma AnnouncerOnlyOf(s: State, c: CallId, address: nat)
    requires Enabled(s, Advance(c, address))
    requires var pc := s.calls[c].pc;
      pc.AddLink? || pc.AddRecheck? || pc.DoneStore? || pc.DoneClear? || pc.Swap? || pc.Walk? || pc.Free?
    ensures var s' := Apply(s, Advance(c, address)); OnlyOf(s, s', c) && s'.calls[c].drops == s.calls[c].drops
  {
  }

  lemma DropCounters(s: State, c: CallId, address: nat)
    requires Enabled(s, Advance(c, address)) && s.calls[c].pc.Drop?
    ensures var s' := Apply(s, Advance(c, address));
      && s'.epoch == s.epoch && s'.args == s.args && s'.cacheSize == s.cacheSize
      && (s'.phase.Open? <==> s.phase.Open?)
  {
  }

  lemma AdvanceCounters(s: State, c: CallId, address: nat)
    requires Enabled(s, Advance(c, address))
    ensures var s' := Apply(s, Advance(c, address));
      && s'.epoch == s.epoch && s'.args == s.args && s'.cacheSize == s.cacheSize
      && (s'.phase.Open? <==> s.phase.Open?)
  {
    var pc := s.calls[c].pc;
    if pc.Drop? {
      DropCounters(s, c, address);
    } else if pc.AddCheck? || pc.AddBypass? || pc.AddCreate? || pc.AddInit? || pc.AddSwap? {
      AdderOnlyOf(s, c, address);
    } else {
      AnnouncerOnlyOf(s, c, address);
    }
  }

  lemma AdvanceCall(s: State, c: CallId, address: nat, d: CallId)
    requires Enabled(s, Advance(c, address)) && !s.calls[c].pc.Drop?
    ensures var s' := Apply(s, Advance(c, address));
      && (d in s'.calls <==> d in s.calls)
      && (d in s.calls ==>
            && s'.calls[d].adds == s.calls[d].adds && s'.calls[d].epoch == s.calls[d].epoch
            && s'.calls[d].drops == s.calls[d].drops + (if s.calls[c].pc.AddBypass? && d == c then [s.exc] else []))
  {
    var pc := s.calls[c].pc;
    if pc.AddCheck? || pc.AddBypass? || pc.AddCreate? || pc.AddInit? || pc.AddSwap? {
      AdderOnlyOf(s, c, address);
    } else {
      AnnouncerOnlyOf(s, c, address);
    }
  }

  lemma DropCall(s: State, c: CallId, address: nat, d: CallId)
    requires Enabled(s, Advance(c, address)) && s.calls[c].pc.Drop?
    ensures var s' := Apply(s, Advance(c, address));
      && (d in s'.calls <==> d in s.calls)
      && (d in s.calls ==>
            && s'.calls[d].adds == s.calls[d].adds && s'.calls[d].epoch == s.calls[d].epoch
            && s'.calls[d].drops == s.calls[d].drops + (if s.mem[s.calls[c].pc.node].task == d then [s.exc] else []))
  {
  }

  /** Whom it lets go. */
  lemma AdvanceLetsGo(s: State, c: CallId, address: nat, d: CallId)
    requires Enabled(s, Advance(c, address))
    ensures var s', a := Apply(s, Advance(c, address)), Advance(c, address);
      && (d in s'.calls <==> d in s.calls)
      && (d in s.calls ==>
            && s'.calls[d].adds == s.calls[d].adds && s'.calls[d].epoch == s.calls[d].epoch
            && s'.calls[d].drops == s.calls[d].drops + (if LetsGo(s, a) == Some(d) then [s.exc] else []))
  {
    if s.calls[c].pc.Drop? {
      DropCall(s, c, address, d);
    } else {
      AdvanceCall(s, c, address, d);
    }
  }

  lemma SeenAdvance(s: State, c: CallId, address: nat, log: Log, d: CallId)
    requires Enabled(s, Advance(c, address))
    ensures var a := Advance(c, address); var log' := Seen(s, a, log);
      && log'.resets == log.resets && log'.added == log.added && log'.given == log.given && log'.size == log.size
      && log'.created == log.created + (if Creates(s, a) then 1 else 0)
      && log'.overflow == (log.overflow || (Creates(s, a) && log.created >= WORD))
      && Times(log', d) == Times(log, d) + (if LetsGo(s, a) == Some(d) then [s.exc] else [])
  {
  }

  lemma CountsStay(s: State, a: Action, log: Log)
    requires Counts(s, log)
    ensures Counts(Step(s, a), Seen(s, a, log))
  {
    if a.Advance? && Enabled(s, a) {
      AdvanceCounters(s, a.call, a.address);
      AdvanceCounts(s, a.call, a.address);
      SeenAdvance(s, a.call, a.address, log, 0);
    }
  }

  lemma GivenStays(s: State, a: Action, log: Log, k: nat)
    requires Core(s) && log.resets == s.epoch && GivenAt(s, log, k)
    ensures GivenAt(Step(s, a), Seen(s, a, log), k)
  {
    if a.Advance? && Enabled(s, a) {
      AdvanceCounters(s, a.call, a.address);
      SeenAdvance(s, a.call, a.address, log, 0);
    }
  }

  /** Nobody is let go before doneWaiting was called since the last reset. */
  lemma LetGoWhenGiven(s: State, c: CallId, address: nat, d: CallId)
    requires Core(s) && Enabled(s, Advance(c, address)) && LetsGo(s, Advance(c, address)) == Some(d)
    ensures d in s.calls && s.calls[d].adds && s.calls[d].epoch == s.epoch && !s.phase.Open?
  {
    assert CallAt(s, c);
    if s.calls[c].pc.Drop? {
      WR.Dropped(s, c);
    }
  }

  lemma AddStays(s: State, a: Action, log: Log, c: CallId)
    requires Core(s) && log.resets == s.epoch && AddAt(s, log, c) && GivenAt(s, log, s.epoch)
    ensures AddAt(Step(s, a), Seen(s, a, log), c)
  {
    if a.Advance? && Enabled(s, a) {
      AdvanceLetsGo(s, a.call, a.address, c);
      SeenAdvance(s, a.call, a.address, log, c);
      if LetsGo(s, a) == Some(c) {
        LetGoWhenGiven(s, a.call, a.address, c);
      }
    }
  }

  lemma {:induction false} WatchedMatches(s: State, acts: seq<Action>, log: Log)
    requires Inv(s) && Counts(s, log) && (!s.wrapped ==> Matches(s, log))
    ensures var s', log' := Run(s, acts), Watched(s, acts, log);
      Inv(s') && Counts(s', log') && (!s'.wrapped ==> Matches(s', log'))
    decreases |acts|
  {
    if acts != [] {
      var s', log' := Step(s, acts[0]), Seen(s, acts[0], log);
      StepKeepsInv(s, acts[0]);
      CountsStay(s, acts[0], log);
      if !s'.wrapped {
        StepMatches(s, acts[0], log);
      }
      WatchedMatches(s', acts[1..], log');
    }
  }

  lemma StaysWrapped(s: State, a: Action)
    requires s.wrapped
    ensures Step(s, a).wrapped
  {
    if a.Advance? && Enabled(s, a) {
      AdvanceCounts(s, a.call, a.address);
    }
  }

  lemma StepMatches(s: State, a: Action, log: Log)
    requires Inv(s) && !Step(s, a).wrapped && (!s.wrapped ==> Matches(s, log)) && Counts(Step(s, a), Seen(s, a, log))
    ensures Matches(Step(s, a), Seen(s, a, log))
  {
    if s.wrapped {
      StaysWrapped(s, a);
    }
    assert GivenAt(s, log, s.epoch);
    forall c ensures AddAt(Step(s, a), Seen(s, a, log), c) {
      assert AddAt(s, log, c);
      AddStays(s, a, log, c);
    }
    forall k: nat ensures GivenAt(Step(s, a), Seen(s, a, log), k) {
      assert GivenAt(s, log, k);
      GivenStays(s, a, log, k);
    }
  }

  /** What was seen of a run of a new list. */
  function Log0(cacheSize: nat, acts: seq<Action>): Log {
    Watched(Init(cacheSize), acts, Nothing(cacheSize))
  }

  lemma Observed(cacheSize: nat, acts: seq<Action>) returns (s: State, log: Log)
    ensures s == Run(Init(cacheSize), acts) && log == Log0(cacheSize, acts)
    ensures log.overflow == s.wrapped && (!log.overflow ==> Core(s) && Matches(s, log))
  {
    s, log := Run(Init(cacheSize), acts), Log0(cacheSize, acts);
    WatchedMatches(Init(cacheSize), acts, Nothing(cacheSize));
  }

  // ---------- what a run does ----------

  /** Whoever called add is let go at most once, not before doneWaiting was called with the same
      resets before it, and with the exception that doneWaiting was given there. */
  lemma NeverEarlyNeverTwice(cacheSize: nat, acts: seq<Action>, c: CallId)
    requires var log := Log0(cacheSize, acts); !log.overflow && c in log.added && Times(log, c) != []
    ensures var log := Log0(cacheSize, acts);
      log.added[c] in log.given && Times(log, c) == [log.given[log.added[c]]]
  {
    var s, log := Observed(cacheSize, acts);
    assert AddAt(s, log, c) && CallAt(s, c) && GivenAt(s, log, log.added[c]);
  }

  /** Nobody is let go who did not call add. */
  lemma NobodyElse(cacheSize: nat, acts: seq<Action>, c: CallId)
    requires var log := Log0(cacheSize, acts); !log.overflow && c !in log.added
    ensures Times(Log0(cacheSize, acts), c) == []
  {
    var s, log := Observed(cacheSize, acts);
    assert AddAt(s, log, c);
  }

  /** When all calls have returned and doneWaiting was called since the last reset, the head is
      null, nothing is leaked, and everybody who ever called add has been let go exactly once, with
      what doneWaiting was given between the same resets. */
  lemma NoLostWakeup(cacheSize: nat, acts: seq<Action>)
    requires var log := Log0(cacheSize, acts); !log.overflow && log.resets in log.given
    requires AllReturned(Run(Init(cacheSize), acts))
    ensures Run(Init(cacheSize), acts).head == Null && Run(Init(cacheSize), acts).heap == {}
    ensures var log := Log0(cacheSize, acts);
      forall c | c in log.added :: log.added[c] in log.given && Times(log, c) == [log.given[log.added[c]]]
  {
    var s, log := Observed(cacheSize, acts);
    assert GivenAt(s, log, s.epoch);
    AllDropped(cacheSize, acts);
    forall c | c in log.added ensures log.added[c] in log.given && Times(log, c) == [log.given[log.added[c]]] {
      assert AddAt(s, log, c);
      NeverEarlyNeverTwice(cacheSize, acts, c);
    }
  }

  /** The list is closed with what doneWaiting was given. */
  lemma ClosesAsGiven(cacheSize: nat, acts: seq<Action>, c: CallId)
    requires !Log0(cacheSize, acts).overflow
    requires var s := Run(Init(cacheSize), acts); c in s.calls && s.calls[c].pc.DoneClear?
    ensures var s, log := Run(Init(cacheSize), acts), Log0(cacheSize, acts);
      log.resets in log.given && WR.EffectOf(s, Advance(c, 0)) == WL.Closed(log.given[log.resets])
  {
    var s, log := Observed(cacheSize, acts);
    assert CallAt(s, c) && GivenAt(s, log, s.epoch);
  }

  /** What the growth at a reset is for: a call of add takes a node from the heap exactly when as
      many were taken since the last reset as the cache had at first, or as were taken between any
      two resets before, if those are more. */
  lemma HeapExactly(cacheSize: nat, acts: seq<Action>, c: CallId, address: nat)
    requires var s := Run(Init(cacheSize), acts); c in s.calls && s.calls[c].pc.AddCreate? && address !in s.heap
    requires Log0(cacheSize, acts).created < WORD && !Log0(cacheSize, acts).overflow
    ensures var s, log := Run(Init(cacheSize), acts), Log0(cacheSize, acts);
      && c in Step(s, Advance(c, address)).calls
      && Step(s, Advance(c, address)).calls[c].newHead ==
         Some(if log.created >= log.size then Heap(address) else Cached(s.cacheId, log.created))
  {
    var s, log := Observed(cacheSize, acts);
  }
}
