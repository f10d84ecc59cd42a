// Reference-counted tasks and their holders, at the grain of single accesses: when a task
// fires and which exception it carries.

module WaitingTaskHolders {
  import opened Basics

  /** What can own a share of a task: a holder object, or the node of a wait list to which a
      holder released its share. */
  datatype Owner = Holder(id: nat) | Node(id: nat)

  datatype Hold =
    | Null
    | Has(task: nat)
    | Failing(task: nat, exc: Exc, last: bool)  // dependentTaskFailed has read m_ptr as null
    | LettingGo(task: nat)                      // doneWaiting has recorded its exception

  /** `offered` is history: the exceptions handed to dependentTaskFailed. `fired` counts how
      often the task was given to its group, `ran` how often that has begun to execute.
      A reused task belongs to some other object and is not deleted after it ran. */
  datatype Task = Task(
    refs: nat,
    exc: Option<Exc>,
    reused: bool,
    offered: set<Exc>,
    fired: nat,
    ran: nat)

  datatype State = State(tasks: map<nat, Task>, owners: map<Owner, Hold>)

  datatype Action =
    | NewTask(task: nat, reused: bool)
    | Make(owner: Owner, task: nat)               // WaitingTaskHolder(group, task)
    | MakeNull(owner: Owner)
    | Copy(from: Owner, to: Owner)
    | Move(from: Owner, to: Owner)                // also release_no_decrement, to a node
    | Swap(from: Owner, to: Owner)
    | Fail(owner: Owner, exc: Exc, last: bool)    // last: in doneWaiting, else presetTaskAsFailed
    | Record(owner: Owner)                        // the compare-exchange of m_ptr
    | LetGo(owner: Owner)                         // decrement_ref_count
    | Destroy(owner: Owner)                       // of a null holder, or of a node
    | Execute(task: nat)

  function Init(): State {
    State(map[], map[])
  }

  function TaskOf(h: Hold): Option<nat> {
    if h.Null? then None else Some(h.task)
  }

  /** Given to its group and not yet begun. */
  predicate Scheduled(t: Task) {
    t.fired > t.ran
  }

  predicate Enabled(s: State, a: Action) {
    match a
    case NewTask(t, _) => t !in s.tasks
    case Make(o, t) => o !in s.owners && t in s.tasks && !Scheduled(s.tasks[t])
    case MakeNull(o) => o !in s.owners
    case Copy(o, p) => o in s.owners && s.owners[o].Has? && p !in s.owners
    case Move(o, p) => o in s.owners && (s.owners[o].Has? || s.owners[o].Null?) && p !in s.owners
    case Swap(o, p) =>
      && o in s.owners && (s.owners[o].Has? || s.owners[o].Null?)
      && p in s.owners && (s.owners[p].Has? || s.owners[p].Null?)
    case Fail(o, _, _) => o in s.owners && s.owners[o].Has? && s.owners[o].task in s.tasks
    case Record(o) => o in s.owners && s.owners[o].Failing? && s.owners[o].task in s.tasks
    case LetGo(o) =>
      && o in s.owners && (s.owners[o].Has? || s.owners[o].LettingGo?) && s.owners[o].task in s.tasks
      && s.tasks[s.owners[o].task].refs > 0
    case Destroy(o) => o in s.owners && s.owners[o].Null?
    case Execute(t) => t in s.tasks && Scheduled(s.tasks[t])
  }

  function DoMake(s: State, o: Owner, t: nat): State
    requires t in s.tasks
  {
    State(s.tasks[t := s.tasks[t].(refs := s.tasks[t].refs + 1)], s.owners[o := Has(t)])
  }

  function DoMove(s: State, o: Owner, p: Owner): State
    requires o in s.owners
  {
    s.(owners := s.owners[o := Null][p := s.owners[o]])
  }

  function DoSwap(s: State, o: Owner, p: Owner): State
    requires o in s.owners && p in s.owners
  {
    s.(owners := s.owners[o := s.owners[p]][p := s.owners[o]])
  }

  /** dependentTaskFailed looks at m_ptr first: a task that has failed keeps what it has. */
  function DoFail(s: State, o: Owner, e: Exc, last: bool): State
    requires o in s.owners && s.owners[o].Has? && s.owners[o].task in s.tasks
  {
    var t := s.owners[o].task;
    State(s.tasks[t := s.tasks[t].(offered := s.tasks[t].offered + {e})],
          s.owners[o := if s.tasks[t].exc == None then Failing(t, e, last)
                        else if last then LettingGo(t) else Has(t)])
  }

  function DoRecord(s: State, o: Owner): State
    requires o in s.owners && s.owners[o].Failing? && s.owners[o].task in s.tasks
  {
    var h := s.owners[o];
    State(s.tasks[h.task := s.tasks[h.task].(exc := FirstOf(s.tasks[h.task].exc, Some(h.exc)))],
          s.owners[o := if h.last then LettingGo(h.task) else Has(h.task)])
  }

  /** The last one to let go gives the task to its group. */
  function DoLetGo(s: State, o: Owner): State
    requires o in s.owners && !s.owners[o].Null? && s.owners[o].task in s.tasks
    requires s.tasks[s.owners[o].task].refs > 0
  {
    var t := s.owners[o].task;
    var x := s.tasks[t];
    State(s.tasks[t := x.(refs := x.refs - 1, fired := if x.refs == 1 then x.fired + 1 else x.fired)],
          s.owners[o := Null])
  }

  /** The task begins to execute, from when on a reused one may be held again; others delete
      themselves in the end. */
  function DoExecute(s: State, t: nat): State
    requires t in s.tasks
  {
    if s.tasks[t].reused then s.(tasks := s.tasks[t := s.tasks[t].(ran := s.tasks[t].ran + 1)])
    else s.(tasks := s.tasks - {t})
  }

  function Apply(s: State, a: Action): State
    requires Enabled(s, a)
  {
    match a
    case NewTask(t, reused) => s.(tasks := s.tasks[t := Task(0, None, reused, {}, 0, 0)])
    case Make(o, t) => DoMake(s, o, t)
    case MakeNull(o) => s.(owners := s.owners[o := Null])
    case Copy(o, p) => if s.owners[o].task in s.tasks then DoMake(s, p, s.owners[o].task) else s
    case Move(o, p) => DoMove(s, o, p)
    case Swap(o, p) => DoSwap(s, o, p)
    case Fail(o, e, last) => DoFail(s, o, e, last)
    case Record(o) => DoRecord(s, o)
    case LetGo(o) => DoLetGo(s, o)
    case Destroy(o) => s.(owners := s.owners - {o})
    case Execute(t) => DoExecute(s, t)
  }

  function Step(s: State, a: Action): State {
    if Enabled(s, a) then Apply(s, a) else s
  }

  function Run(s: State, acts: seq<Action>): State
    decreases |acts|
  {
    if acts == [] then s else Run(Step(s, acts[0]), acts[1..])
  }

  // ---------- the invariant ----------

  /** The owners of a share of t. */
  function Owners(s: State, t: nat): set<Owner> {
    set o | o in s.owners && TaskOf(s.owners[o]) == Some(t)
  }

  /** The count is the number of owners; a task that was given to its group has none left;
      an exception comes from an owner, and one that was offered is recorded or about to be. */
  ghost predicate TaskAt(s: State, t: nat) {
    t in s.tasks ==>
      var x := s.tasks[t];
      && x.refs == |Owners(s, t)|
      && x.ran <= x.fired <= x.ran + 1
      && (Scheduled(x) ==> x.refs == 0)
      && (x.exc.Some? ==> x.exc.value in x.offered)
      && (x.offered != {} && x.exc == None ==> exists o :: o in Owners(s, t) && s.owners[o].Failing?)
  }

  /** Nobody owns a share of a task that is gone; whoever lets go with an exception has seen
      one recorded. */
  ghost predicate OwnerAt(s: State, o: Owner) {
    o in s.owners && !s.owners[o].Null? ==>
      && s.owners[o].task in s.tasks
      && (s.owners[o].LettingGo? ==> s.tasks[s.owners[o].task].exc.Some?)
      && (s.owners[o].Failing? ==> s.owners[o].exc in s.tasks[s.owners[o].task].offered)
  }

  ghost predicate Inv(s: State) {
    && (forall t {:trigger TaskAt(s, t)} :: TaskAt(s, t))
    && (forall o {:trigger OwnerAt(s, o)} :: OwnerAt(s, o))
  }

  /** A task whose owners and whose own state are as before. */
  lemma TaskStays(s: State, s': State, t: nat)
    requires TaskAt(s, t) && Owners(s', t) == Owners(s, t)
    requires t in s'.tasks ==> t in s.tasks && s'.tasks[t] == s.tasks[t]
    requires forall o | o in Owners(s, t) :: s.owners[o].Failing? ==> s'.owners[o].Failing?
    ensures TaskAt(s', t)
  {
    if t in s'.tasks && s.tasks[t].offered != {} && s.tasks[t].exc == None {
      var o :| o in Owners(s, t) && s.owners[o].Failing?;
      assert o in Owners(s', t) && s'.owners[o].Failing?;
    }
  }

  /** A new share. */
  lemma ShareKeeps(s: State, o: Owner, t: nat)
    requires Inv(s) && o !in s.owners && t in s.tasks && !Scheduled(s.tasks[t])
    ensures Inv(DoMake(s, o, t))
  {
    var s' := DoMake(s, o, t);
    forall u: nat ensures TaskAt(s', u) {
      assert TaskAt(s, u);
      ShareTask(s, o, t, u);
    }
    forall p ensures OwnerAt(s', p) {
      assert OwnerAt(s, p);
    }
  }

  lemma ShareTask(s: State, o: Owner, t: nat, u: nat)
    requires TaskAt(s, u) && o !in s.owners && t in s.tasks && !Scheduled(s.tasks[t])
    ensures TaskAt(DoMake(s, o, t), u)
  {
    var s' := DoMake(s, o, t);
    if u != t {
      assert Owners(s', u) == Owners(s, u);
      TaskStays(s, s', u);
    } else {
      OneMore(Owners(s, t), Owners(s', t), o);
      assert s'.tasks[t] == s.tasks[t].(refs := s.tasks[t].refs + 1);
      if s.tasks[t].offered != {} && s.tasks[t].exc == None {
        var p :| p in Owners(s, t) && s.owners[p].Failing?;
        assert p in Owners(s', t) && s'.owners[p].Failing?;
      }
    }
  }

  lemma OneMore<T>(x: set<T>, y: set<T>, a: T)
    requires a !in x && forall b :: b in y <==> b in x || b == a
    ensures y == x + {a} && |y| == |x| + 1
  {
  }

  /** Shares change hands: one owner for the other. */
  lemma ExchangeCount<T>(x: set<T>, y: set<T>, a: T, b: T)
    requires y == x - {a} + {b} && a in x && b !in x
    ensures |y| == |x|
  {
  }

  lemma MoveKeeps(s: State, o: Owner, p: Owner)
    requires Inv(s) && Enabled(s, Move(o, p))
    ensures Inv(DoMove(s, o, p))
  {
    var s' := DoMove(s, o, p);
    forall u: nat ensures TaskAt(s', u) {
      assert TaskAt(s, u);
      MoveTask(s, o, p, u);
    }
    forall q ensures OwnerAt(s', q) {
      assert OwnerAt(s, q) && OwnerAt(s, o);
    }
  }

  lemma MoveTask(s: State, o: Owner, p: Owner, u: nat)
    requires Enabled(s, Move(o, p)) && TaskAt(s, u)
    ensures TaskAt(DoMove(s, o, p), u)
  {
    var s' := DoMove(s, o, p);
    if TaskOf(s.owners[o]) == Some(u) {
      assert Owners(s', u) == Owners(s, u) - {o} + {p};
      ExchangeCount(Owners(s, u), Owners(s', u), o, p);
    } else {
      assert Owners(s', u) == Owners(s, u);
    }
    if u in s.tasks && s.tasks[u].offered != {} && s.tasks[u].exc == None {
      var q :| q in Owners(s, u) && s.owners[q].Failing?;
      assert q in Owners(s', u) && s'.owners[q].Failing?;
    }
  }

  lemma SwapKeeps(s: State, o: Owner, p: Owner)
    requires Inv(s) && Enabled(s, Swap(o, p))
    ensures Inv(DoSwap(s, o, p))
  {
    var s' := DoSwap(s, o, p);
    forall u: nat ensures TaskAt(s', u) {
      assert TaskAt(s, u);
      SwapTask(s, o, p, u);
    }
    forall q ensures OwnerAt(s', q) {
      assert OwnerAt(s, q) && OwnerAt(s, o) && OwnerAt(s, p);
    }
  }

  lemma SwapTask(s: State, o: Owner, p: Owner, u: nat)
    requires Enabled(s, Swap(o, p)) && TaskAt(s, u)
    ensures TaskAt(DoSwap(s, o, p), u)
  {
    var s' := DoSwap(s, o, p);
    var mine, other := TaskOf(s.owners[o]) == Some(u), TaskOf(s.owners[p]) == Some(u);
    if mine == other {
      assert Owners(s', u) == Owners(s, u);
    } else if mine {
      assert Owners(s', u) == Owners(s, u) - {o} + {p};
      ExchangeCount(Owners(s, u), Owners(s', u), o, p);
    } else {
      assert Owners(s', u) == Owners(s, u) - {p} + {o};
      ExchangeCount(Owners(s, u), Owners(s', u), p, o);
    }
    if u in s.tasks && s.tasks[u].offered != {} && s.tasks[u].exc == None {
      var q :| q in Owners(s, u) && s.owners[q].Failing?;
      assert q in Owners(s', u) && s'.owners[q].Failing?;
    }
  }

  lemma FailKeeps(s: State, o: Owner, e: Exc, last: bool)
    requires Inv(s) && Enabled(s, Fail(o, e, last))
    ensures Inv(DoFail(s, o, e, last))
  {
    var s' := DoFail(s, o, e, last);
    var t := s.owners[o].task;
    forall u: nat ensures TaskAt(s', u) {
      assert TaskAt(s, u);
      assert Owners(s', u) == Owners(s, u);
      if u != t {
        TaskStays(s, s', u);
      } else if s.tasks[t].exc == None {
        assert o in Owners(s', t) && s'.owners[o].Failing?;
      }
    }
    forall p ensures OwnerAt(s', p) {
      assert OwnerAt(s, p);
    }
  }

  lemma RecordKeeps(s: State, o: Owner)
    requires Inv(s) && Enabled(s, Record(o))
    ensures Inv(DoRecord(s, o))
  {
    var s' := DoRecord(s, o);
    assert OwnerAt(s, o);
    forall u: nat ensures TaskAt(s', u) {
      assert TaskAt(s, u);
      assert Owners(s', u) == Owners(s, u);
      if u != s.owners[o].task {
        TaskStays(s, s', u);
      }
    }
    forall p ensures OwnerAt(s', p) {
      assert OwnerAt(s, p);
    }
  }

  lemma LetGoKeeps(s: State, o: Owner)
    requires Inv(s) && Enabled(s, LetGo(o))
    ensures Inv(DoLetGo(s, o))
  {
    var s' := DoLetGo(s, o);
    var t := s.owners[o].task;
    forall u: nat ensures TaskAt(s', u) {
      assert TaskAt(s, u);
      if u != t {
        assert Owners(s', u) == Owners(s, u);
        TaskStays(s, s', u);
      } else {
        assert Owners(s', t) == Owners(s, t) - {o};
        if s.tasks[t].offered != {} && s.tasks[t].exc == None {
          var p :| p in Owners(s, t) && s.owners[p].Failing?;
          assert p in Owners(s', t) && s'.owners[p].Failing?;
        }
      }
    }
    forall p ensures OwnerAt(s', p) {
      assert OwnerAt(s, p);
    }
  }

  lemma ExecuteKeeps(s: State, t: nat)
    requires Inv(s) && Enabled(s, Execute(t))
    ensures Inv(DoExecute(s, t))
  {
    var s' := DoExecute(s, t);
    assert TaskAt(s, t);
    assert Owners(s, t) == {};
    forall u: nat ensures TaskAt(s', u) {
      assert TaskAt(s, u);
      assert Owners(s', u) == Owners(s, u);
    }
    forall p ensures OwnerAt(s', p) {
      assert OwnerAt(s, p) && p !in Owners(s, t);
    }
  }

  /** Steps that touch no share. */
  lemma NullKeeps(s: State, s': State)
    requires Inv(s) && s'.tasks == s.tasks
    requires forall o | o in s.owners && !s.owners[o].Null? :: o in s'.owners && s'.owners[o] == s.owners[o]
    requires forall o | o in s'.owners && !s'.owners[o].Null? :: o in s.owners && s'.owners[o] == s.owners[o]
    ensures Inv(s')
  {
    forall u: nat ensures TaskAt(s', u) {
      assert TaskAt(s, u);
      assert Owners(s', u) == Owners(s, u);
      TaskStays(s, s', u);
    }
    forall p ensures OwnerAt(s', p) {
      assert OwnerAt(s, p);
    }
  }

  lemma NewTaskKeeps(s: State, t: nat, reused: bool)
    requires Inv(s) && t !in s.tasks
    ensures Inv(Apply(s, NewTask(t, reused)))
  {
    var s' := Apply(s, NewTask(t, reused));
    forall u: nat ensures TaskAt(s', u) {
      assert TaskAt(s, u);
      assert Owners(s', u) == Owners(s, u);
      if u == t {
        NobodyOwns(s, t);
      } else {
        TaskStays(s, s', u);
      }
    }
    forall p ensures OwnerAt(s', p) {
      assert OwnerAt(s, p);
    }
  }

  lemma NobodyOwns(s: State, t: nat)
    requires Inv(s) && t !in s.tasks
    ensures Owners(s, t) == {}
  {
    forall o ensures o !in Owners(s, t) {
      assert OwnerAt(s, o);
    }
  }

  lemma StepKeepsInv(s: State, a: Action)
    requires Inv(s)
    ensures Inv(Step(s, a))
  {
    if Enabled(s, a) {
      match a
      case NewTask(t, reused) => NewTaskKeeps(s, t, reused);
      case Make(o, t) => ShareKeeps(s, o, t);
      case MakeNull(o) => NullKeeps(s, Apply(s, a));
      case Copy(o, p) =>
        assert OwnerAt(s, o) && TaskAt(s, s.owners[o].task);
        assert o in Owners(s, s.owners[o].task);
        ShareKeeps(s, p, s.owners[o].task);
      case Move(o, p) => MoveKeeps(s, o, p);
      case Swap(o, p) => SwapKeeps(s, o, p);
      case Fail(o, e, last) => FailKeeps(s, o, e, last);
      case Record(o) => RecordKeeps(s, o);
      case LetGo(o) => LetGoKeeps(s, o);
      case Destroy(o) => NullKeeps(s, Apply(s, a));
      case Execute(t) => ExecuteKeeps(s, t);
    }
  }

  lemma {:induction false} RunKeepsInv(s: State, acts: seq<Action>)
    requires Inv(s)
    ensures Inv(Run(s, acts))
    decreases |acts|
  {
    if acts != [] {
      StepKeepsInv(s, acts[0]);
      RunKeepsInv(Step(s, acts[0]), acts[1..]);
    }
  }

  lemma Reached(acts: seq<Action>)
    ensures Inv(Run(Init(), acts))
  {
    RunKeepsInv(Init(), acts);
  }

  // ---------- what it gives ----------

  /** At every moment of every run the count of a task is its live holders and the list nodes
      that own it, and none of these points to a task that is gone. */
  lemma CountIsOwners(acts: seq<Action>, t: nat)
    ensures var s := Run(Init(), acts);
      && (t in s.tasks ==> s.tasks[t].refs == |Owners(s, t)|)
      && (t !in s.tasks ==> Owners(s, t) == {})
  {
    Reached(acts);
    var s := Run(Init(), acts);
    assert TaskAt(s, t);
    if t !in s.tasks {
      NobodyOwns(s, t);
    }
  }

  lemma Alone(s: State, t: nat, o: Owner)
    requires o in Owners(s, t)
    ensures |Owners(s, t)| == 1 <==> Owners(s, t) == {o}
  {
    if |Owners(s, t)| == 1 {
      assert |Owners(s, t) - {o}| == 0;
    }
  }

  /** A decrement gives the task to its group exactly when nobody else owns a share; and it
      never does so twice without the task having begun to execute in between. */
  lemma LastOneFires(acts: seq<Action>, o: Owner)
    requires Enabled(Run(Init(), acts), LetGo(o))
    ensures var s := Run(Init(), acts);
      var t := s.owners[o].task;
      var x, x' := s.tasks[t], DoLetGo(s, o).tasks[t];
      && !Scheduled(x) && x.fired == x.ran
      && (Scheduled(x') <==> Owners(s, t) == {o})
      && x'.fired == x.ran + (if Owners(s, t) == {o} then 1 else 0)
  {
    Reached(acts);
    var s := Run(Init(), acts);
    var t := s.owners[o].task;
    assert TaskAt(s, t) && o in Owners(s, t);
    Alone(s, t, o);
  }

  /** While anybody holds a task it is not given to its group: a module that prefetches holds
      its own run task until its loop over the getters is over, so it cannot start before. */
  lemma HeldIsNotScheduled(acts: seq<Action>, o: Owner)
    requires var s := Run(Init(), acts); o in s.owners && !s.owners[o].Null?
    ensures var s := Run(Init(), acts);
      && s.owners[o].task in s.tasks && !Scheduled(s.tasks[s.owners[o].task])
      && !Enabled(s, Execute(s.owners[o].task))
  {
    Reached(acts);
    var s := Run(Init(), acts);
    assert OwnerAt(s, o) && TaskAt(s, s.owners[o].task);
    assert o in Owners(s, s.owners[o].task);
  }

  /** A task that fires carries an exception exactly when one was offered to it, and one of
      those. */
  lemma FiresWithException(acts: seq<Action>, t: nat)
    requires Enabled(Run(Init(), acts), Execute(t))
    ensures var x := Run(Init(), acts).tasks[t];
      && (x.exc.Some? <==> x.offered != {})
      && (x.exc.Some? ==> x.exc.value in x.offered)
  {
    Reached(acts);
    assert TaskAt(Run(Init(), acts), t);
  }

  /** The first exception recorded stays, whoever else fails. */
  lemma {:induction false} FirstStays(s: State, acts: seq<Action>, t: nat)
    requires t in s.tasks && s.tasks[t].exc.Some? && (s.tasks[t].reused || Execute(t) !in acts)
    ensures var s' := Run(s, acts); t in s'.tasks && s'.tasks[t].exc == s.tasks[t].exc
    decreases |acts|
  {
    if acts != [] {
      FirstStays(Step(s, acts[0]), acts[1..], t);
    }
  }

  /** What the accesses of copy assignment are: the copy, the swap, and the destructor of the
      copy, which lets go of what the holder had. `tmp` is the local copy. */
  function Assignment(s: State, o: Owner, p: Owner, tmp: Owner): seq<Action> {
    [Copy(p, tmp), Swap(o, tmp)]
    + (if o in s.owners && s.owners[o].Null? then [Destroy(tmp)] else [LetGo(tmp), Destroy(tmp)])
  }

  /** The holder has the other's task, the share of its old task is let go if it had one, and
      nothing changes if both had the same. */
  ghost predicate Assigned(s: State, s': State, o: Owner, p: Owner)
    requires o in s.owners && p in s.owners && s.owners[p].Has?
  {
    var u := s.owners[p].task;
    && s'.owners == s.owners[o := s.owners[p]]
    && u in s.tasks && s'.tasks.Keys == s.tasks.Keys
    && (s.owners[o] == s.owners[p] ==> s' == s)
    && (s.owners[o] != s.owners[p] ==> s'.tasks[u] == s.tasks[u].(refs := s.tasks[u].refs + 1))
    && (s.owners[o].Has? && s.owners[o] != s.owners[p] ==>
          var t := s.owners[o].task;
          && t in s.tasks && s'.tasks[t].refs == s.tasks[t].refs - 1
          && (Scheduled(s'.tasks[t]) <==> Owners(s, t) == {o}))
    && (forall t | t in s.tasks && t != u && TaskOf(s.owners[o]) != Some(t) :: s'.tasks[t] == s.tasks[t])
  }

  /** Copy assignment, with no access of another thread in between, to a holder with or without
      a task, and to itself. */
  lemma AssignedIs(s: State, o: Owner, p: Owner, tmp: Owner)
    requires Inv(s) && o in s.owners && (s.owners[o].Has? || s.owners[o].Null?)
    requires p in s.owners && s.owners[p].Has? && tmp !in s.owners
    ensures Assigned(s, Run(s, Assignment(s, o, p, tmp)), o, p)
  {
    var u := s.owners[p].task;
    assert OwnerAt(s, o) && OwnerAt(s, p) && TaskAt(s, u) && p in Owners(s, u);
    if s.owners[o].Null? {
      AssignedEmpty(s, o, p, tmp);
    } else {
      assert TaskAt(s, s.owners[o].task) && o in Owners(s, s.owners[o].task);
      AssignmentRuns(s, o, p, tmp);
      AssignedFull(s, o, p, tmp);
    }
  }

  lemma AssignedEmpty(s: State, o: Owner, p: Owner, tmp: Owner)
    requires o in s.owners && s.owners[o].Null? && p in s.owners && s.owners[p].Has? && tmp !in s.owners
    requires s.owners[p].task in s.tasks
    ensures Assigned(s, Run(s, Assignment(s, o, p, tmp)), o, p)
  {
    var s1 := DoMake(s, tmp, s.owners[p].task);
    var s2 := DoSwap(s1, o, tmp);
    var s3 := s2.(owners := s2.owners - {tmp});
    RunThree(s, Copy(p, tmp), Swap(o, tmp), Destroy(tmp), s1, s2, s3);
    assert s3.owners == s.owners[o := s.owners[p]];
  }

  /** The copy, the swap and the destruction of the copy, one after the other. */
  function AfterAssignment(s: State, o: Owner, p: Owner, tmp: Owner): State
    requires o in s.owners && s.owners[o].Has? && p in s.owners && s.owners[p].Has? && tmp !in s.owners
    requires s.owners[o].task in s.tasks && s.owners[p].task in s.tasks && s.tasks[s.owners[o].task].refs > 0
  {
    var s3 := DoLetGo(DoSwap(DoMake(s, tmp, s.owners[p].task), o, tmp), tmp);
    s3.(owners := s3.owners - {tmp})
  }

  lemma AssignmentRuns(s: State, o: Owner, p: Owner, tmp: Owner)
    requires o in s.owners && s.owners[o].Has? && p in s.owners && s.owners[p].Has? && tmp !in s.owners
    requires s.owners[o].task in s.tasks && s.owners[p].task in s.tasks && s.tasks[s.owners[o].task].refs > 0
    ensures Run(s, Assignment(s, o, p, tmp)) == AfterAssignment(s, o, p, tmp)
  {
    var s1 := DoMake(s, tmp, s.owners[p].task);
    var s2 := DoSwap(s1, o, tmp);
    var s3 := DoLetGo(s2, tmp);
    RunFour(s, Copy(p, tmp), Swap(o, tmp), LetGo(tmp), Destroy(tmp), s1, s2, s3, s3.(owners := s3.owners - {tmp}));
    assert Assignment(s, o, p, tmp) == [Copy(p, tmp), Swap(o, tmp), LetGo(tmp), Destroy(tmp)];
  }

  lemma AssignedFull(s: State, o: Owner, p: Owner, tmp: Owner)
    requires o in s.owners && s.owners[o].Has? && p in s.owners && s.owners[p].Has? && tmp !in s.owners
    requires s.owners[o].task in s.tasks && s.owners[p].task in s.tasks
    requires TaskAt(s, s.owners[o].task) && s.tasks[s.owners[o].task].refs > 0
    ensures Assigned(s, AfterAssignment(s, o, p, tmp), o, p)
  {
    var t, u := s.owners[o].task, s.owners[p].task;
    var s' := AfterAssignment(s, o, p, tmp);
    assert s'.owners == s.owners[o := s.owners[p]];
    if t == u {
      assert s'.tasks == s.tasks;
      assert s'.owners == s.owners;
    } else {
      assert o in Owners(s, t);
      Alone(s, t, o);
    }
  }

  lemma RunThree(s: State, a: Action, b: Action, c: Action, s1: State, s2: State, s3: State)
    requires Step(s, a) == s1 && Step(s1, b) == s2 && Step(s2, c) == s3
    ensures Run(s, [a, b, c]) == s3
  {
    assert [a, b, c][1..] == [b, c] && [b, c][1..] == [c] && [c][1..] == [];
    assert Run(s2, [c]) == s3;
    assert Run(s1, [b, c]) == s3;
  }

  lemma RunFour(s: State, a: Action, b: Action, c: Action, d: Action, s1: State, s2: State, s3: State, s4: State)
    requires Step(s, a) == s1 && Step(s1, b) == s2 && Step(s2, c) == s3 && Step(s3, d) == s4
    ensures Run(s, [a, b, c, d]) == s4
  {
    RunThree(s1, b, c, d, s2, s3, s4);
    assert [a, b, c, d][1..] == [b, c, d];
  }
}
