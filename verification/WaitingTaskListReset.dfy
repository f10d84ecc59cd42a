// When the list may be opened again. Its owner resets it when everybody was let go, which does
// not say that all calls have returned: the one that closed it may be held up before it takes
// the head, because an adder that looked again has announced everybody, or at the node that it
// has just announced.

module WaitingTaskListResets {
  import opened Basics
  import opened WaitingTaskLists
  import opened WaitingTaskListTheorems

  /** What the owner of the list knows at a reset. */
  predicate AllLetGo(s: State) {
    && !s.waiting
    && forall c | c in s.calls && s.calls[c].adds :: s.calls[c].drops != []
  }

  /** Somebody was let go in this epoch although doneWaiting was not called in it. */
  predicate Early(s: State) {
    exists c :: c in s.calls && s.calls[c].adds && s.calls[c].drops != [] && s.calls[c].epoch == s.epoch && s.phase.Open?
  }

  /** The next access of some call is to memory that was freed. */
  predicate Dangling(s: State) {
    exists c :: c in s.calls && Touched(s.calls[c].pc).Some? && !Allocated(s, Touched(s.calls[c].pc).value)
  }

  /** Whatever is done with the list from now on. */
  ghost predicate Fit(s: State) {
    forall acts :: FitAfter(s, acts)
  }

  ghost predicate FitAfter(s: State, acts: seq<Action>) {
    Run(s, acts).wrapped || (!Early(Run(s, acts)) && !Dangling(Run(s, acts)))
  }

  lemma CoreIsFit(s: State)
    requires Core(s)
    ensures !Early(s) && !Dangling(s)
  {
    forall c | c in s.calls && s.calls[c].adds && s.calls[c].drops != [] && s.calls[c].epoch == s.epoch
      ensures !s.phase.Open?
    {
      assert CallAt(s, c);
    }
    forall c | c in s.calls && Touched(s.calls[c].pc).Some?
      ensures Allocated(s, Touched(s.calls[c].pc).value)
    {
      TouchedIsSpotted(s, c);
    }
  }

  lemma SettledIsFit(s: State)
    requires Core(s) && Givens(s) && Settled(s)
    ensures Fit(DoReset(s))
  {
    ResetKeeps(s);
    ResetKeepsGivens(s);
    forall acts ensures FitAfter(DoReset(s), acts) {
      RunKeepsInv(DoReset(s), acts);
      if !Run(DoReset(s), acts).wrapped {
        CoreIsFit(Run(DoReset(s), acts));
      }
    }
  }

  /** What may be in progress when everybody was let go. */
  lemma InProgress(s: State, c: CallId)
    requires Core(s) && AllLetGo(s) && c in s.calls && !Harmless(s, s.calls[c].pc)
    ensures s.head == Null
    ensures s.calls[c].pc.Swap? || (s.calls[c].pc.Free? && s.calls[c].pc.node.Cached? && Grows(s))
  {
    assert CallAt(s, c);
    NoChain(s, |s.takers|);
    if Announcing(s.calls[c].pc) {
      NoChain(s, s.calls[c].batch);
    }
  }

  lemma NoChain(s: State, b: nat)
    requires Core(s) && AllLetGo(s) && b < |s.batches|
    ensures s.batches[b] == []
  {
    assert s.batches[b] != [] ==> Spotted(s.batches, s.spots, b, 0) && SpotAt(s, s.batches[b][0]);
  }

  // ---------- a call that has still to take the head ----------

  lemma RunThree(s: State, x: Action, y: Action, z: Action)
    ensures Run(s, [x, y, z]) == Step(Step(Step(s, x), y), z)
  {
    assert [x, y, z][1..] == [y, z] && [y, z][1..] == [z] && [z][1..] == [];
    assert Run(Step(Step(s, x), y), [z]) == Step(Step(Step(s, x), y), z);
  }

  lemma {:induction false} RunBoth(s: State, xs: seq<Action>, ys: seq<Action>)
    ensures Run(s, xs + ys) == Run(Run(s, xs), ys)
    decreases |xs|
  {
    if xs == [] {
      assert xs + ys == ys;
    } else {
      assert (xs + ys)[1..] == xs[1..] + ys;
      RunBoth(Step(s, xs[0]), xs[1..], ys);
    }
  }

  function Begins(a: CallId, address: nat): seq<Action> {
    [CallAdd(a), Advance(a, address), Advance(a, address)]
  }

  function Joins(a: CallId, address: nat): seq<Action> {
    [Advance(a, address), Advance(a, address), Advance(a, address)]
  }

  /** c takes the head, follows the link, and lets go. */
  function Takes(c: CallId): seq<Action> {
    [Advance(c, 0), Advance(c, 0), Advance(c, 0)]
  }

  lemma BeginRun(s: State, a: CallId, address: nat) returns (n: Node)
    requires s.waiting && s.created == 0 && !s.wrapped && a !in s.calls && address !in s.heap
    ensures n == if s.cacheSize > 0 then Cached(s.cacheId, 0) else Heap(address)
    ensures var t := Run(s, Begins(a, address));
      && !t.wrapped && t.head == s.head && t.batches == s.batches && t.phase == s.phase && t.epoch == s.epoch
      && t.waiting && t.calls == s.calls[a := Call(AddInit(n), true, Some(n), [], s.epoch, 0)]
  {
    var s1 := DoCallAdd(s, a);
    var s2 := DoAddCheck(s1, a);
    var s3 := DoAddCreate(s2, a, address);
    n := s3.calls[a].pc.node;
    RunThree(s, CallAdd(a), Advance(a, address), Advance(a, address));
    assert Step(s, CallAdd(a)) == s1 && Step(s1, Advance(a, address)) == s2 && Step(s2, Advance(a, address)) == s3;
  }

  lemma JoinRun(s: State, a: CallId, address: nat, n: Node)
    requires s.head == Null && s.batches != [] && !s.wrapped && a in s.calls && s.calls[a].pc == AddInit(n)
    ensures var t := Run(s, Joins(a, address));
      && !t.wrapped && t.head == To(n) && t.batches != [] && t.phase == s.phase && t.epoch == s.epoch
      && t.waiting == s.waiting && n in t.mem && t.mem[n] == WaitNode(a, Null)
      && t.calls == s.calls[a := s.calls[a].(pc := AddRecheck)]
  {
    var s1 := DoAddInit(s, a, n);
    var s2 := DoAddSwap(s1, a, n);
    var s3 := DoAddLink(s2, a, n, Null);
    RunThree(s, Advance(a, address), Advance(a, address), Advance(a, address));
    assert Step(s, Advance(a, address)) == s1 && Step(s1, Advance(a, address)) == s2 && Step(s2, Advance(a, address)) == s3;
  }

  lemma TakeRun(s: State, a: CallId, c: CallId, n: Node)
    requires s.head == To(n) && s.batches != [] && !s.wrapped && a != c && s.phase.Open?
    requires n in s.mem && s.mem[n] == WaitNode(a, Null) && c in s.calls && s.calls[c].pc.Swap?
    requires a in s.calls && s.calls[a].adds && s.calls[a].epoch == s.epoch
    ensures Early(Run(s, Takes(c))) && !Run(s, Takes(c)).wrapped
  {
    var s1 := DoSwap(s, c);
    var s2 := DoWalk(s1, c, To(n));
    var s3 := DoDrop(s2, c, n, Null);
    RunThree(s, Advance(c, 0), Advance(c, 0), Advance(c, 0));
    assert Step(s, Advance(c, 0)) == s1 && Step(s1, Advance(c, 0)) == s2 && Step(s2, Advance(c, 0)) == s3;
    assert a in s3.calls && s3.calls[a].drops != [] && s3.calls[a].adds && s3.calls[a].epoch == s3.epoch;
  }

  /** A call that has still to take the head lets go of whoever joins after the reset. */
  lemma LateTakeBites(s: State, c: CallId)
    requires s.waiting && s.phase.Open? && s.created == 0 && s.batches != [] && !s.wrapped && s.head == Null
    requires c in s.calls && s.calls[c].pc.Swap?
    ensures !Fit(s)
  {
    var a := NewNumber(s.calls.Keys);
    var address := NewNumber(s.heap);
    var n := BeginRun(s, a, address);
    var s1 := Run(s, Begins(a, address));
    JoinRun(s1, a, address, n);
    var s2 := Run(s1, Joins(a, address));
    TakeRun(s2, a, c, n);
    RunBoth(s1, Joins(a, address), Takes(c));
    RunBoth(s, Begins(a, address), Joins(a, address) + Takes(c));
    assert !FitAfter(s, Begins(a, address) + (Joins(a, address) + Takes(c)));
  }

  /** When everybody was let go and doneWaiting has closed the list: after a reset nobody is let
      go early and no freed memory is touched, whatever is done with the list, if and only if
      no call has still to take the head, and none to look at a node of the cache that the
      reset deletes. */
  lemma ResetExactly(cacheSize: nat, acts: seq<Action>)
    requires !Run(Init(cacheSize), acts).wrapped && AllLetGo(Run(Init(cacheSize), acts))
    ensures var s := Run(Init(cacheSize), acts); Fit(DoReset(s)) <==> Settled(s)
  {
    var s := Run(Init(cacheSize), acts);
    RunKeepsInv(Init(cacheSize), acts);
    if Settled(s) {
      SettledIsFit(s);
    } else {
      NoChain(s, |s.takers|);
      var c :| c in s.calls && !Harmless(s, s.calls[c].pc);
      InProgress(s, c);
      if s.calls[c].pc.Swap? {
        LateTakeBites(DoReset(s), c);
      } else {
        TouchedIsSpotted(s, c);
        assert Dangling(DoReset(s));
        assert Run(DoReset(s), []) == DoReset(s);
        assert !FitAfter(DoReset(s), []);
      }
    }
  }

  // ---------- it happens ----------

  /** An adder that joined first, and is about to look again at a list closed meanwhile. */
  predicate Overtaking(s: State, a: CallId, c: CallId, n: Node) {
    && !s.wrapped && s.head == To(n) && s.batches != [] && !s.waiting
    && n in s.mem && s.mem[n] == WaitNode(a, Null) && s.calls.Keys == {a, c} && a != c
    && s.calls[a].pc.AddRecheck? && s.calls[a].adds && !s.calls[c].adds && s.calls[c].pc.Swap?
  }

  function Looks(a: CallId): seq<Action> {
    [Advance(a, 0), Advance(a, 0), Advance(a, 0)]
  }

  /** It takes the head, and lets itself go. */
  lemma OvertakeRun(s: State, a: CallId, c: CallId, n: Node)
    requires Overtaking(s, a, c, n)
    ensures var t := Run(s, Looks(a));
      && !t.wrapped && t.head == Null && !t.waiting && t.calls.Keys == {a, c} && t.calls[c] == s.calls[c]
      && t.calls[a].pc == Drop(n, Null) && t.calls[a].adds && t.calls[a].batch < |t.batches|
      && n in t.mem && t.mem[n].task == a
  {
    var s1 := DoAddRecheck(s, a);
    var s2 := DoSwap(s1, a);
    var s3 := DoWalk(s2, a, To(n));
    RunThree(s, Advance(a, 0), Advance(a, 0), Advance(a, 0));
    assert Step(s, Advance(a, 0)) == s1 && Step(s1, Advance(a, 0)) == s2 && Step(s2, Advance(a, 0)) == s3;
  }

  /** With it everybody is. */
  lemma LastDrop(s: State, a: CallId, c: CallId, n: Node)
    requires !s.waiting && s.calls.Keys == {a, c} && a != c && !s.calls[c].adds
    requires s.calls[a].pc == Drop(n, Null) && s.calls[a].batch < |s.batches| && n in s.mem && s.mem[n].task == a
    ensures var t := DoDrop(s, a, n, Null);
      && Step(s, Advance(a, 0)) == t
      && AllLetGo(t) && t.calls.Keys == {a, c} && t.calls[c] == s.calls[c] && t.calls[a].pc == Free(n, Null)
  {
  }

  /** And returns. */
  lemma ThenReturns(s: State, a: CallId, c: CallId, n: Node)
    requires AllLetGo(s) && s.calls.Keys == {a, c} && a != c && s.calls[a].pc == Free(n, Null)
    ensures Step(s, Advance(a, 0)) == DoFree(s, a, n, Null)
    ensures var t := DoWalk(DoFree(s, a, n, Null), a, Null);
      && Step(DoFree(s, a, n, Null), Advance(a, 0)) == t
      && AllLetGo(t) && t.calls.Keys == {a, c} && t.calls[c] == s.calls[c] && t.calls[a].pc.Returned?
  {
  }

  lemma ReturnRun(s: State, a: CallId, c: CallId, n: Node)
    requires !s.wrapped && s.head == Null && !s.waiting && s.calls.Keys == {a, c} && a != c && !s.calls[c].adds
    requires s.calls[a].pc == Drop(n, Null) && s.calls[a].batch < |s.batches| && n in s.mem && s.mem[n].task == a
    ensures var t := Run(s, Looks(a));
      && AllLetGo(t) && !t.wrapped && t.head == Null && t.calls.Keys == {a, c}
      && t.calls[c] == s.calls[c] && t.calls[a].pc.Returned?
  {
    LastDrop(s, a, c, n);
    ThenReturns(DoDrop(s, a, n, Null), a, c, n);
    RunThree(s, Advance(a, 0), Advance(a, 0), Advance(a, 0));
  }

  function Closes(c: CallId): seq<Action> {
    [CallDone(c, None), Advance(c, 0), Advance(c, 0)]
  }

  lemma CloseRun(s: State, a: CallId, c: CallId, n: Node)
    requires !s.wrapped && s.head == To(n) && s.batches != [] && s.phase.Open? && n in s.mem && s.mem[n] == WaitNode(a, Null)
    requires s.calls.Keys == {a} && s.calls[a].pc.AddRecheck? && s.calls[a].adds && a != c
    ensures Overtaking(Run(s, Closes(c)), a, c, n)
  {
    var s1 := DoCallDone(s, c, None);
    var s2 := DoDoneStore(s1, c, None);
    var s3 := DoDoneClear(s2, c);
    RunThree(s, CallDone(c, None), Advance(c, 0), Advance(c, 0));
    assert Step(s, CallDone(c, None)) == s1 && Step(s1, Advance(c, 0)) == s2 && Step(s2, Advance(c, 0)) == s3;
  }

  lemma LateTakeFrom(s0: State) returns (acts: seq<Action>)
    requires s0.waiting && s0.created == 0 && !s0.wrapped && s0.calls == map[] && s0.heap == {}
    requires s0.head == Null && s0.batches != [] && s0.phase.Open?
    ensures var s := Run(s0, acts);
      && AllLetGo(s) && !s.wrapped && s.head == Null && s.calls.Keys == {0, 1}
      && s.calls[1].pc.Swap? && s.calls[0].pc.Returned?
  {
    var n := BeginRun(s0, 0, 0);
    var s1 := Run(s0, Begins(0, 0));
    JoinRun(s1, 0, 0, n);
    var s2 := Run(s1, Joins(0, 0));
    CloseRun(s2, 0, 1, n);
    var s3 := Run(s2, Closes(1));
    OvertakeRun(s3, 0, 1, n);
    ReturnRun(Run(s3, Looks(0)), 0, 1, n);
    RunBoth(s3, Looks(0), Looks(0));
    RunBoth(s2, Closes(1), Looks(0) + Looks(0));
    RunBoth(s1, Joins(0, 0), Closes(1) + (Looks(0) + Looks(0)));
    acts := Begins(0, 0) + (Joins(0, 0) + (Closes(1) + (Looks(0) + Looks(0))));
    RunBoth(s0, Begins(0, 0), Joins(0, 0) + (Closes(1) + (Looks(0) + Looks(0))));
  }

  /** There is such a run: an adder is held up before it looks again, and doneWaiting before it
      takes the head. The adder announces itself and returns, and everybody was let go. */
  lemma LateTakeRuns()
    ensures exists acts :: LateTake(Run(Init(2), acts))
  {
    var acts := LateTakeFrom(Init(2));
    assert LateTake(Run(Init(2), acts));
  }

  /** Everybody was let go, and all calls have returned but one, which has still to take the
      head. */
  predicate LateTake(s: State) {
    && AllLetGo(s) && !s.wrapped && s.head == Null && s.calls.Keys == {0, 1}
    && s.calls[1].pc.Swap? && s.calls[0].pc.Returned?
  }
}
