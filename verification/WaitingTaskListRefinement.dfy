// The lock-free list refines the one of WaitList.dfy: every access of every call, and every
// reset of a settled list, is a step of that list or changes nothing there.

module WaitingTaskListRefinements {
  import opened Basics
  import opened WaitingTaskLists
  import opened WaitingTaskListTheorems
  import WL = WaitLists

  // ---------- what is seen from outside ----------

  /** Past its exchange and not let go. */
  predicate Waits(call: Call) {
    call.adds && !BeforeSwap(call.pc) && call.drops == []
  }

  /** Its node is in the chain at the head. */
  predicate AtHead(s: State, call: Call) {
    && Waits(call) && call.newHead.Some? && call.newHead.value in s.spots
    && s.spots[call.newHead.value].InBatch? && s.spots[call.newHead.value].batch == |s.takers|
  }

  /** It found the head empty, and has still to look again or, having looked, to take it. */
  predicate Rechecks(call: Call) {
    call.adds && (call.pc.AddRecheck? || call.pc.Swap? || (call.pc.AddLink? && call.pc.prev == Null))
  }

  predicate Joined(s: State, call: Call) {
    call.adds && call.newHead.Some? && !BeforeSwap(call.pc) && call.epoch == s.epoch
  }

  /** A closer that has let somebody go and has still to look at a preallocated node. */
  predicate Reads(call: Call) {
    !call.adds && call.pc.Free? && call.pc.node.Cached?
  }

  function Waiting(s: State): set<CallId> {
    set c | c in s.calls && Waits(s.calls[c])
  }

  function Head(s: State): set<CallId> {
    set c | c in s.calls && AtHead(s, s.calls[c])
  }

  function Rechecking(s: State): set<CallId> {
    set c | c in s.calls && Rechecks(s.calls[c])
  }

  function JoinedCalls(s: State): set<CallId> {
    set c | c in s.calls && Joined(s, s.calls[c])
  }

  function Readers(s: State): set<CallId> {
    set c | c in s.calls && Reads(s.calls[c])
  }

  predicate Taking(s: State) {
    s.phase.Closing? && s.phase.closer in s.calls && s.calls[s.phase.closer].pc.Swap?
  }

  function Abs(s: State): WL.WaitList<CallId> {
    WL.WaitList(!s.waiting, if s.waiting then None else s.exc, Waiting(s), Head(s), Rechecking(s), Taking(s),
                JoinedCalls(s), s.cacheSize, Readers(s) != {}, false)
  }

  /** What an action lets go of, or a reset, seen from outside. */
  function EffectOf(s: State, a: Action): WL.Effect<CallId> {
    if !Enabled(s, a) then WL.Silent
    else if a.Reset? then WL.Reopened
    else if !a.Advance? then WL.Silent
    else if s.calls[a.call].pc.AddBypass? then WL.LetGo(a.call, s.exc)
    else if s.calls[a.call].pc.DoneClear? then WL.Closed(s.exc)
    else if s.calls[a.call].pc.Drop? then WL.LetGo(s.mem[s.calls[a.call].pc.node].task, s.exc)
    else WL.Silent
  }

  // ---------- one call at a time ----------

  /** What the abstract list sees of a call. */
  predicate SameView(s: State, s': State, c: CallId) {
    (c in s.calls && Waits(s.calls[c]) <==> c in s'.calls && Waits(s'.calls[c]))
    && (c in s.calls && AtHead(s, s.calls[c]) <==> c in s'.calls && AtHead(s', s'.calls[c]))
    && (c in s.calls && Rechecks(s.calls[c]) <==> c in s'.calls && Rechecks(s'.calls[c]))
    && (c in s.calls && Joined(s, s.calls[c]) <==> c in s'.calls && Joined(s', s'.calls[c]))
    && (c in s.calls && Reads(s.calls[c]) <==> c in s'.calls && Reads(s'.calls[c]))
  }

  function With(x: set<CallId>, c: CallId, there: bool): set<CallId> {
    if there then x + {c} else x - {c}
  }

  /** Only c changes. */
  lemma OneCall(s: State, s': State, c: CallId)
    requires c in s'.calls && forall d | d != c :: SameView(s, s', d)
    ensures Waiting(s') == With(Waiting(s), c, Waits(s'.calls[c]))
    ensures Head(s') == With(Head(s), c, AtHead(s', s'.calls[c]))
    ensures Rechecking(s') == With(Rechecking(s), c, Rechecks(s'.calls[c]))
    ensures JoinedCalls(s') == With(JoinedCalls(s), c, Joined(s', s'.calls[c]))
    ensures Readers(s') == With(Readers(s), c, Reads(s'.calls[c]))
  {
    forall d | d != c
      ensures d in Waiting(s') <==> d in Waiting(s)
      ensures d in Head(s') <==> d in Head(s)
      ensures d in Rechecking(s') <==> d in Rechecking(s)
      ensures d in JoinedCalls(s') <==> d in JoinedCalls(s)
      ensures d in Readers(s') <==> d in Readers(s)
    {
      assert SameView(s, s', d);
    }
  }

  /** Only c changes, and where its node is only if nobody else has it. */
  lemma OthersSame(s: State, s': State, c: CallId, d: CallId)
    requires d != c && s'.epoch == s.epoch && |s'.takers| == |s.takers|
    requires (d in s'.calls <==> d in s.calls) && (d in s.calls ==> s'.calls[d] == s.calls[d])
    requires d in s.calls && s.calls[d].newHead.Some? && Waits(s.calls[d]) ==>
      var n := s.calls[d].newHead.value;
      (n in s.spots <==> n in s'.spots) && (n in s.spots ==> s'.spots[n] == s.spots[n])
    ensures SameView(s, s', d)
  {
  }

  /** Where the node of a waiting call is, nobody else has anything. */
  lemma WaitingNode(s: State, d: CallId)
    requires CallAt(s, d) && d in s.calls && Waits(s.calls[d])
    ensures s.calls[d].newHead.Some?
    ensures var n := s.calls[d].newHead.value;
      n in s.spots && s.spots[n].InBatch? && n in s.mem && s.mem[n].task == d
  {
  }

  /** An access of c that touches the place of no node in a chain. */
  lemma OthersUnseen(s: State, s': State, c: CallId)
    requires Core(s) && c in s.calls && c in s'.calls && s'.calls == s.calls[c := s'.calls[c]]
    requires s'.epoch == s.epoch && |s'.takers| == |s.takers|
    requires forall n {:trigger n in s.spots} | n in s.spots && s.spots[n].InBatch? && (n in s.mem ==> s.mem[n].task != c) ::
      n in s'.spots && s'.spots[n] == s.spots[n]
    ensures forall d | d != c :: SameView(s, s', d)
  {
    forall d | d != c ensures SameView(s, s', d) {
      assert CallAt(s, d);
      if d in s.calls && Waits(s.calls[d]) {
        WaitingNode(s, d);
      }
      OthersSame(s, s', c, d);
    }
  }

  // ---------- the accesses ----------

  lemma CallRefines(s: State, s': State, c: CallId, call: Call)
    requires Core(s) && c !in s.calls && s'.calls == s.calls[c := call]
    requires !Waits(call) && !Rechecks(call) && !Joined(s', call) && !Reads(call)
    requires s'.spots == s.spots && s'.takers == s.takers && s'.epoch == s.epoch
    ensures Waiting(s') == Waiting(s) && Head(s') == Head(s) && Rechecking(s') == Rechecking(s)
    ensures JoinedCalls(s') == JoinedCalls(s) && Readers(s') == Readers(s)
  {
    forall d | d != c ensures SameView(s, s', d) {
      OthersSame(s, s', c, d);
    }
    OneCall(s, s', c);
  }

  /** An access that is not seen. */
  lemma Unseen(s: State, s': State, c: CallId)
    requires Core(s) && c in s.calls && c in s'.calls && s'.calls == s.calls[c := s'.calls[c]]
    requires s'.epoch == s.epoch && |s'.takers| == |s.takers| && SameView(s, s', c)
    requires forall n {:trigger n in s.spots} | n in s.spots && s.spots[n].InBatch? && (n in s.mem ==> s.mem[n].task != c) ::
      n in s'.spots && s'.spots[n] == s.spots[n]
    ensures Waiting(s') == Waiting(s) && Head(s') == Head(s) && Rechecking(s') == Rechecking(s)
    ensures JoinedCalls(s') == JoinedCalls(s) && Readers(s') == Readers(s)
  {
    OthersUnseen(s, s', c);
    OneCall(s, s', c);
  }

  lemma BeforeRefines(s: State, c: CallId, address: nat)
    requires Core(s) && Enabled(s, Advance(c, address))
    requires s.calls[c].pc.AddCheck? || s.calls[c].pc.AddBypass? || s.calls[c].pc.AddInit?
    ensures WL.Next(Abs(s), Abs(Apply(s, Advance(c, address))), EffectOf(s, Advance(c, address)))
  {
    assert CallAt(s, c);
    Unseen(s, Apply(s, Advance(c, address)), c);
    assert Abs(Apply(s, Advance(c, address))) == Abs(s);
  }

  lemma CreateRefines(s: State, c: CallId, address: nat)
    requires Core(s) && Enabled(s, Advance(c, address)) && s.calls[c].pc.AddCreate? && s.created < WORD
    ensures Abs(DoAddCreate(s, c, address)) == Abs(s)
  {
    assert CallAt(s, c) && SpotAt(s, Cached(s.cacheId, s.created)) && SpotAt(s, Heap(address));
    Unseen(s, DoAddCreate(s, c, address), c);
  }

  /** The head is null exactly when nobody waits there. */
  lemma HeadIsEmpty(s: State)
    requires Core(s)
    ensures s.head == Null <==> Head(s) == {}
  {
    if s.head == Null {
      forall c | c in s.calls ensures !AtHead(s, s.calls[c]) {
        if s.calls[c].newHead.Some? { assert SpotAt(s, s.calls[c].newHead.value); }
      }
    } else {
      Ends(s, |s.takers|);
      var n := s.batches[|s.takers|][0];
      assert s.mem[n].task in Head(s);
    }
  }

  lemma JoinSets(s: State, c: CallId)
    requires Core(s) && c in s.calls && s.calls[c].pc.AddSwap?
    ensures c !in Waiting(s) && c !in Rechecking(s) && c !in JoinedCalls(s) && c !in Readers(s) && s.phase != Closing(c)
    ensures var s' := DoAddSwap(s, c, s.calls[c].pc.node);
      && Waiting(s') == Waiting(s) + {c} && Head(s') == Head(s) + {c} && JoinedCalls(s') == JoinedCalls(s) + {c}
      && Rechecking(s') == With(Rechecking(s), c, s.head == Null) && Readers(s') == Readers(s)
  {
    var s' := DoAddSwap(s, c, s.calls[c].pc.node);
    assert CallAt(s, c);
    OthersUnseen(s, s', c);
    OneCall(s, s', c);
  }

  lemma JoinRefines(s: State, c: CallId)
    requires Core(s) && c in s.calls && s.calls[c].pc.AddSwap?
    ensures c !in Abs(s).joined
    ensures Abs(DoAddSwap(s, c, s.calls[c].pc.node)) == WL.Join(Abs(s), c)
  {
    var s' := DoAddSwap(s, c, s.calls[c].pc.node);
    HeadIsEmpty(s);
    JoinSets(s, c);
    assert Taking(s') == Taking(s);
    assert Abs(s').rechecks == WL.Join(Abs(s), c).rechecks;
  }

  lemma LinkRefines(s: State, c: CallId)
    requires Core(s) && c in s.calls && s.calls[c].pc.AddLink? && s.calls[c].pc.node in s.mem
    ensures Abs(DoAddLink(s, c, s.calls[c].pc.node, s.calls[c].pc.prev)) == Abs(s)
  {
    assert CallAt(s, c);
    Unseen(s, DoAddLink(s, c, s.calls[c].pc.node, s.calls[c].pc.prev), c);
  }

  lemma RecheckRefines(s: State, c: CallId)
    requires Core(s) && c in s.calls && s.calls[c].pc.AddRecheck?
    ensures WL.Next(Abs(s), Abs(DoAddRecheck(s, c)), WL.Silent)
  {
    var s' := DoAddRecheck(s, c);
    assert CallAt(s, c);
    if s.waiting {
      OthersUnseen(s, s', c);
      OneCall(s, s', c);
      assert c in Abs(s).rechecks && Abs(s') == WL.Recheck(Abs(s), c);
    } else {
      Unseen(s, s', c);
      assert Abs(s') == Abs(s);
    }
  }

  lemma CloseRefines(s: State, c: CallId)
    requires Core(s) && c in s.calls && (s.calls[c].pc.DoneStore? || s.calls[c].pc.DoneClear?)
    ensures var s' := if s.calls[c].pc.DoneStore? then DoDoneStore(s, c, s.calls[c].pc.arg) else DoDoneClear(s, c);
      WL.Next(Abs(s), Abs(s'), if s.calls[c].pc.DoneStore? then WL.Silent else WL.Closed(s.exc))
  {
    var s' := if s.calls[c].pc.DoneStore? then DoDoneStore(s, c, s.calls[c].pc.arg) else DoDoneClear(s, c);
    assert CallAt(s, c);
    Unseen(s, s', c);
    if s.calls[c].pc.DoneStore? {
      assert Abs(s') == Abs(s);
    } else {
      assert Abs(s') == WL.Close(Abs(s), s.exc);
    }
  }

  /** Whoever takes the chain leaves nobody at the head. */
  lemma TakenHead(s: State, c: CallId)
    requires Core(s) && c in s.calls && s.calls[c].pc.Swap?
    ensures Head(DoSwap(s, c)) == {}
  {
    var s' := DoSwap(s, c);
    forall d | d in s'.calls ensures !AtHead(s', s'.calls[d]) {
      if s'.calls[d].newHead.Some? { assert SpotAt(s, s'.calls[d].newHead.value); }
    }
  }

  lemma TakeSets(s: State, c: CallId)
    requires Core(s) && c in s.calls && s.calls[c].pc.Swap?
    ensures var s' := DoSwap(s, c);
      && Waiting(s') == Waiting(s) && JoinedCalls(s') == JoinedCalls(s) && Readers(s') == Readers(s)
      && Rechecking(s') == Rechecking(s) - {c}
    ensures c in Rechecking(s) <==> s.calls[c].adds
  {
    var s' := DoSwap(s, c);
    assert CallAt(s, c);
    var between := s'.(takers := s.takers);
    OthersUnseen(s, between, c);
    OneCall(s, between, c);
    assert Waiting(s') == Waiting(between) && Rechecking(s') == Rechecking(between);
    assert JoinedCalls(s') == JoinedCalls(between) && Readers(s') == Readers(between);
  }

  lemma TakeRefines(s: State, c: CallId)
    requires Core(s) && c in s.calls && s.calls[c].pc.Swap?
    ensures WL.Next(Abs(s), Abs(DoSwap(s, c)), WL.Silent)
  {
    var s' := DoSwap(s, c);
    assert CallAt(s, c);
    TakenHead(s, c);
    TakeSets(s, c);
    if s.calls[c].adds {
      assert Abs(s') == WL.Recheck(Abs(s), c);
    } else {
      assert Abs(s).taking && Abs(s') == WL.Take(Abs(s));
    }
  }

  lemma WalkRefines(s: State, c: CallId)
    requires Core(s) && c in s.calls && s.calls[c].pc.Walk? && (s.calls[c].pc.cur.To? ==> s.calls[c].pc.cur.node in s.mem)
    ensures Abs(DoWalk(s, c, s.calls[c].pc.cur)) == Abs(s)
  {
    assert CallAt(s, c);
    if !Spinning(s, c) {
      Unseen(s, DoWalk(s, c, s.calls[c].pc.cur), c);
    }
  }

  lemma FreeSets(s: State, c: CallId)
    requires Core(s) && c in s.calls && s.calls[c].pc.Free?
    ensures var s' := DoFree(s, c, s.calls[c].pc.node, s.calls[c].pc.next);
      && Waiting(s') == Waiting(s) && Head(s') == Head(s) && Rechecking(s') == Rechecking(s)
      && JoinedCalls(s') == JoinedCalls(s) && Readers(s') == Readers(s) - {c}
  {
    var s' := DoFree(s, c, s.calls[c].pc.node, s.calls[c].pc.next);
    assert CallAt(s, c);
    OthersUnseen(s, s', c);
    OneCall(s, s', c);
  }

  lemma FreeRefines(s: State, c: CallId)
    requires Core(s) && c in s.calls && s.calls[c].pc.Free?
    ensures WL.Next(Abs(s), Abs(DoFree(s, c, s.calls[c].pc.node, s.calls[c].pc.next)), WL.Silent)
  {
    var s' := DoFree(s, c, s.calls[c].pc.node, s.calls[c].pc.next);
    FreeSets(s, c);
    if Readers(s) == {} || Readers(s') != {} {
      assert Abs(s') == Abs(s);
    } else {
      assert Abs(s') == WL.Look(Abs(s));
    }
  }

  // ---------- letting go ----------

  /** The one that is let go waited, and not at the head. */
  lemma Dropped(s: State, c: CallId)
    requires Core(s) && c in s.calls && s.calls[c].pc.Drop?
    ensures s.calls[c].pc.node in s.mem && s.mem[s.calls[c].pc.node].task in s.calls && s.calls[c].batch < |s.batches|
    ensures var n, t := s.calls[c].pc.node, s.mem[s.calls[c].pc.node].task;
      && CallAt(s, c) && CallAt(s, t) && n in s.spots && s.spots[n].InBatch?
      && Waits(s.calls[t]) && !AtHead(s, s.calls[t]) && !s.calls[t].pc.AddLink?
      && s.calls[t].newHead == Some(n) && s.calls[t].epoch == s.epoch && !s.waiting
      && (!s.calls[c].adds ==> s.phase.Closed?)
  {
    assert CallAt(s, c);
    Ends(s, s.calls[c].batch);
    assert CallAt(s, s.mem[s.calls[c].pc.node].task);
  }

  /** What it changes in the view of one call. */
  lemma DropView(s: State, s': State, c: CallId, t: CallId, d: CallId)
    requires c in s.calls && s.calls[c].pc.Drop? && d in s.calls && CallAt(s, d)
    requires s.calls[c].pc.node in s.mem && s.mem[s.calls[c].pc.node].task == t && t in s.calls
    requires s.calls[c].batch < |s.batches| && s' == DoDrop(s, c, s.calls[c].pc.node, s.calls[c].pc.next)
    requires Waits(s.calls[t]) && !AtHead(s, s.calls[t]) && s.calls[t].newHead == Some(s.calls[c].pc.node)
    ensures Waits(s'.calls[d]) <==> Waits(s.calls[d]) && d != t
    ensures AtHead(s', s'.calls[d]) <==> AtHead(s, s.calls[d])
    ensures Rechecks(s'.calls[d]) <==> Rechecks(s.calls[d])
    ensures Joined(s', s'.calls[d]) <==> Joined(s, s.calls[d])
    ensures Reads(s'.calls[d]) <==>
      if d == c then !s.calls[c].adds && s.calls[c].pc.node.Cached? else Reads(s.calls[d])
  {
    if Waits(s.calls[d]) {
      WaitingNode(s, d);
    }
  }

  lemma DropSets(s: State, c: CallId)
    requires Core(s) && c in s.calls && s.calls[c].pc.Drop?
    requires s.calls[c].pc.node in s.mem && s.mem[s.calls[c].pc.node].task in s.calls && s.calls[c].batch < |s.batches|
    ensures var s', t := DoDrop(s, c, s.calls[c].pc.node, s.calls[c].pc.next), s.mem[s.calls[c].pc.node].task;
      && Waiting(s') == Waiting(s) - {t} && Head(s') == Head(s) && Rechecking(s') == Rechecking(s)
      && JoinedCalls(s') == JoinedCalls(s)
      && Readers(s') == With(Readers(s), c, !s.calls[c].adds && s.calls[c].pc.node.Cached?)
  {
    var s', t := DoDrop(s, c, s.calls[c].pc.node, s.calls[c].pc.next), s.mem[s.calls[c].pc.node].task;
    Dropped(s, c);
    forall d | d in s.calls
      ensures d in Waiting(s') <==> d in Waiting(s) && d != t
      ensures d in Head(s') <==> d in Head(s)
      ensures d in Rechecking(s') <==> d in Rechecking(s)
      ensures d in JoinedCalls(s') <==> d in JoinedCalls(s)
      ensures d in Readers(s') <==> if d == c then !s.calls[c].adds && s.calls[c].pc.node.Cached? else d in Readers(s)
    {
      assert CallAt(s, d);
      DropView(s, s', c, t, d);
    }
    assert s'.calls.Keys == s.calls.Keys;
  }

  lemma DropRefines(s: State, c: CallId)
    requires Core(s) && c in s.calls && s.calls[c].pc.Drop?
    ensures Enabled(s, Advance(c, 0))
    ensures WL.Next(Abs(s), Abs(Apply(s, Advance(c, 0))), EffectOf(s, Advance(c, 0)))
  {
    Dropped(s, c);
    var n := s.calls[c].pc.node;
    var s', t := DoDrop(s, c, n, s.calls[c].pc.next), s.mem[n].task;
    DropSets(s, c);
    var reader := !s.calls[c].adds && n.Cached?;
    assert c !in Readers(s);
    assert t in Abs(s).waiting && t !in Abs(s).head;
    assert Taking(s') == Taking(s);
    assert Abs(s') == WL.Leave(Abs(s), t, reader);
  }

  // ---------- a reset ----------

  lemma {:induction false} DistinctCount<T>(xs: seq<T>, m: set<T>)
    requires forall i, j | 0 <= i < j < |xs| :: xs[i] != xs[j]
    requires forall x :: x in xs <==> x in m
    ensures |m| == |xs|
    decreases |xs|
  {
    if xs == [] {
      assert m == {};
    } else {
      var x := xs[|xs| - 1];
      DistinctCount(xs[..|xs| - 1], m - {x});
    }
  }

  /** Everybody that createNode served has joined. */
  lemma AllJoined(s: State)
    requires Core(s) && Givens(s) && Settled(s)
    ensures |JoinedCalls(s)| == s.created
  {
    forall c ensures c in s.given <==> c in JoinedCalls(s) {
      assert HasAt(s, c) && CallAt(s, c);
      if c in s.given {
        var i: nat :| i < |s.given| && s.given[i] == c;
        assert GivenAt(s, i);
      }
    }
    DistinctCount(s.given, JoinedCalls(s));
  }

  lemma ResetRefines(s: State)
    requires Core(s) && Givens(s) && Settled(s) && s.created < WORD
    ensures WL.Settled(Abs(s)) && Abs(DoReset(s)) == WL.Reset(Abs(s))
  {
    NothingLeft(s);
    AllJoined(s);
    var s' := DoReset(s);
    assert Waiting(s) == {} && Head(s) == {};
    assert Waiting(s') == {} && Head(s') == {};
    assert Rechecking(s') == Rechecking(s) && Readers(s') == Readers(s);
    assert JoinedCalls(s') == {};
    if Readers(s) != {} {
      var c :| c in Readers(s);
      assert Harmless(s, s.calls[c].pc);
    }
  }

  // ---------- all steps ----------

  lemma AdvanceRefines(s: State, c: CallId, address: nat)
    requires Core(s) && Enabled(s, Advance(c, address)) && (s.calls[c].pc.AddCreate? ==> s.created < WORD)
    ensures WL.Next(Abs(s), Abs(Apply(s, Advance(c, address))), EffectOf(s, Advance(c, address)))
  {
    match s.calls[c].pc
    case AddCheck => BeforeRefines(s, c, address);
    case AddBypass => BeforeRefines(s, c, address);
    case AddCreate => CreateRefines(s, c, address);
    case AddInit(_) => BeforeRefines(s, c, address);
    case AddSwap(_) => JoinRefines(s, c);
    case AddLink(_, _) => LinkRefines(s, c);
    case AddRecheck => RecheckRefines(s, c);
    case DoneStore(_) => CloseRefines(s, c);
    case DoneClear => CloseRefines(s, c);
    case Swap => TakeRefines(s, c);
    case Walk(_) => WalkRefines(s, c);
    case Drop(_, _) => DropRefines(s, c);
    case Free(_, _) => FreeRefines(s, c);
  }

  /** Every access of every call, and every reset of a settled list, is a step of the abstract
      list or changes nothing there. */
  lemma RefinesWaitList(s: State, a: Action)
    requires Core(s) && Givens(s) && s.created < WORD
    ensures WL.Next(Abs(s), Abs(Step(s, a)), EffectOf(s, a))
  {
    if Enabled(s, a) {
      match a
      case CallAdd(c) =>
        CallRefines(s, Step(s, a), c, Step(s, a).calls[c]);
        assert Abs(Step(s, a)) == Abs(s);
      case CallDone(c, _) =>
        CallRefines(s, Step(s, a), c, Step(s, a).calls[c]);
        assert Abs(Step(s, a)) == Abs(s);
      case Advance(c, address) => AdvanceRefines(s, c, address);
      case Reset => ResetRefines(s);
    }
  }
}
