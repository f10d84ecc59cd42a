// What the lock-free list guarantees over every run: any number of calls, any
// interleaving of their atomic accesses, any number of resets.

module WaitingTaskListTheorems {
  import opened Basics
  import opened WaitingTaskLists

  lemma AdvanceKeepsCore(s: State, c: CallId, address: nat)
    requires Core(s) && Enabled(s, Advance(c, address))
    requires s.calls[c].pc.AddCreate? ==> s.created < WORD
    ensures Core(Apply(s, Advance(c, address)))
  {
    assert CallAt(s, c);
    match s.calls[c].pc
    case AddCheck => AddCheckKeeps(s, c);
    case AddBypass => AddBypassKeeps(s, c);
    case AddCreate => AddCreateKeeps(s, c, address);
    case AddInit(_) => AddInitKeeps(s, c);
    case AddSwap(_) => AddSwapKeeps(s, c);
    case AddLink(_, _) => AddLinkKeeps(s, c);
    case AddRecheck => AddRecheckKeeps(s, c);
    case DoneStore(_) => DoneStoreKeeps(s, c);
    case DoneClear => DoneClearKeeps(s, c);
    case Swap => SwapKeeps(s, c);
    case Walk(cur) => if cur.Null? { WalkEndKeeps(s, c); } else { WalkNextKeeps(s, c, cur.node); }
    case Drop(n, nx) => DropKeeps(s, c, n, nx);
    case Free(_, _) => FreeKeeps(s, c);
  }

  lemma AdvanceCounts(s: State, c: CallId, address: nat)
    requires Enabled(s, Advance(c, address))
    ensures
      var s' := Apply(s, Advance(c, address));
      if s.calls[c].pc.AddCreate?
      then s'.created == s.created + 1 && s'.wrapped == (s.wrapped || s.created >= WORD)
      else s'.created == s.created && s'.wrapped == s.wrapped
  {
  }

  lemma StepKeepsInv(s: State, a: Action)
    requires Inv(s)
    ensures Inv(Step(s, a))
  {
    if Enabled(s, a) && !s.wrapped {
      StepKeepsGivens(s, a);
      match a
      case CallAdd(c) => CallAddKeeps(s, c);
      case CallDone(c, arg) => CallDoneKeeps(s, c, arg);
      case Reset => ResetKeeps(s);
      case Advance(c, address) =>
        AdvanceCounts(s, c, address);
        if !Apply(s, a).wrapped { AdvanceKeepsCore(s, c, address); }
    } else if a.Advance? && Enabled(s, a) {
      AdvanceCounts(s, a.call, a.address);
    }
  }

  lemma {:induction false} RunKeepsInv(s: State, acts: seq<Action>)
    requires Inv(s)
    ensures Inv(Run(s, acts))
    decreases |acts|
  {
    if acts != [] {
      StepKeepsInv(s, acts[0]);
      RunKeepsInv(Step(s, acts[0]), acts[1..]);
    }
  }

  lemma Reached(cacheSize: nat, acts: seq<Action>) returns (s: State)
    requires !Run(Init(cacheSize), acts).wrapped
    ensures s == Run(Init(cacheSize), acts) && Core(s)
  {
    s := Run(Init(cacheSize), acts);
    RunKeepsInv(Init(cacheSize), acts);
  }

  // ---------- no lost wakeup ----------

  /** When all calls have returned and doneWaiting was one of them, the head is null, and
      every holder ever given to add was let go exactly once, with the exception that
      doneWaiting was given in its epoch. Nothing is leaked. */
  lemma AllDropped(cacheSize: nat, acts: seq<Action>)
    requires
      var s := Run(Init(cacheSize), acts);
      !s.wrapped && AllReturned(s) && !s.phase.Open?
    ensures
      var s := Run(Init(cacheSize), acts);
      && s.head == Null && s.heap == {}
      && forall c | c in s.calls && s.calls[c].adds ::
           s.calls[c].epoch < |s.args| && s.calls[c].drops == [s.args[s.calls[c].epoch]]
  {
    var s := Reached(cacheSize, acts);
    if s.head.To? {
      Ends(s, |s.takers|);
    }
    NoneLeft(s);
    forall c | c in s.calls ensures CallAt(s, c) {}
  }

  /** Why: after doneWaiting took the head, a head that is not null is the top of a chain
      whose bottom node's adder linked it to null and has still to look at m_waiting or to
      announce. */
  lemma HeadWillBeAnnounced(cacheSize: nat, acts: seq<Action>)
    requires
      var s := Run(Init(cacheSize), acts);
      !s.wrapped && s.phase.Closed? && s.head.To?
    ensures
      var s := Run(Init(cacheSize), acts);
      s.batches != [] && var chain := s.batches[|s.batches| - 1];
      && s.head == Top(chain) && chain != []
      && chain[0] in s.mem && s.mem[chain[0]].task in s.calls
      && var pc := s.calls[s.mem[chain[0]].task].pc;
      (pc.AddLink? && pc.prev == Null) || pc.AddRecheck? || pc.Swap?
  {
    var s := Reached(cacheSize, acts);
  }

  /** At every moment: a holder is let go at most once, and never before doneWaiting. */
  lemma DroppedOnce(cacheSize: nat, acts: seq<Action>, c: CallId)
    requires !Run(Init(cacheSize), acts).wrapped
    requires
      var s := Run(Init(cacheSize), acts);
      c in s.calls && s.calls[c].drops != []
    ensures
      var s := Run(Init(cacheSize), acts);
      && s.calls[c].epoch < |s.args| && s.calls[c].drops == [s.args[s.calls[c].epoch]]
      && (s.calls[c].epoch == s.epoch ==> !s.phase.Open?)
  {
    var s := Reached(cacheSize, acts);
    assert CallAt(s, c);
  }

  /** The assertion of reset, for a list with no call in progress: it holds exactly when
      doneWaiting was called or nothing was added since the last reset. */
  lemma ResetAssertion(cacheSize: nat, acts: seq<Action>)
    requires var s := Run(Init(cacheSize), acts); !s.wrapped && AllReturned(s)
    ensures
      var s := Run(Init(cacheSize), acts);
      s.head == Null <==>
        !s.phase.Open? || forall c | c in s.calls && s.calls[c].adds :: s.calls[c].epoch < s.epoch
  {
    var s := Reached(cacheSize, acts);
    if s.phase.Open? {
      if s.head.To? {
        Ends(s, |s.takers|);
      } else {
        NoneLeft(s);
        forall c | c in s.calls && s.calls[c].adds ensures s.calls[c].epoch < s.epoch {
          assert CallAt(s, c);
        }
      }
    } else {
      AllDropped(cacheSize, acts);
    }
  }

  // ---------- integrity of the chains ----------

  /** What the link of a node means: what its adder is about to write, else what is stored. */
  function Link(s: State, n: Node): Ptr
    requires n in s.mem
  {
    var c := s.mem[n].task;
    if c in s.calls && s.calls[c].pc.AddLink? && s.calls[c].pc.node == n then s.calls[c].pc.prev
    else s.mem[n].next
  }

  ghost predicate ChainOk(s: State, b: nat)
    requires b < |s.batches|
  {
    forall i {:trigger s.batches[b][i]} | 0 <= i < |s.batches[b]| ::
      && s.batches[b][i] in s.mem && Allocated(s, s.batches[b][i])
      && Link(s, s.batches[b][i]) == Below(s, b, i)
      // a self link is exactly a link still to be written, by a call that is not announcing
      && (s.mem[s.batches[b][i]].next == To(s.batches[b][i]) <==>
            && s.mem[s.batches[b][i]].task in s.calls
            && s.calls[s.mem[s.batches[b][i]].task].pc == AddLink(s.batches[b][i], Below(s, b, i)))
  }

  /** The logical links from the head and from each announcer's cursor lead down disjoint
      chains without repetition that end in null. */
  lemma ListIntegrity(cacheSize: nat, acts: seq<Action>)
    requires !Run(Init(cacheSize), acts).wrapped
    ensures
      var s := Run(Init(cacheSize), acts);
      && |s.batches| == |s.takers| + 1 && s.head == Top(s.batches[|s.takers|])
      && (forall b | 0 <= b < |s.batches| :: ChainOk(s, b))
      && (forall b, i, d, j | 0 <= b < |s.batches| && 0 <= i < |s.batches[b]|
            && 0 <= d < |s.batches| && 0 <= j < |s.batches[d]|
            && s.batches[b][i] == s.batches[d][j] :: b == d && i == j)
      && (forall c | c in s.calls && s.calls[c].pc.Walk? ::
            && s.calls[c].batch < |s.takers| && s.takers[s.calls[c].batch] == c
            && s.calls[c].pc.cur == Top(s.batches[s.calls[c].batch]))
  {
    var s := Reached(cacheSize, acts);
    forall b | 0 <= b < |s.batches| ensures ChainOk(s, b) {
      forall i {:trigger s.batches[b][i]} | 0 <= i < |s.batches[b]|
        ensures NodeOk(s, s.batches[b][i], b, i) && Allocated(s, s.batches[b][i])
      {
        assert Spotted(s.batches, s.spots, b, i) && SpotAt(s, s.batches[b][i]);
      }
      forall i, j | 0 <= i < |s.batches[b]| && 0 <= j < |s.batches[b]| && s.batches[b][i] == s.batches[b][j]
        ensures i == j
      {
        assert Spotted(s.batches, s.spots, b, i) && Spotted(s.batches, s.spots, b, j);
      }
    }
    forall b, i, d, j | 0 <= b < |s.batches| && 0 <= i < |s.batches[b]|
      && 0 <= d < |s.batches| && 0 <= j < |s.batches[d]| && s.batches[b][i] == s.batches[d][j]
      ensures b == d && i == j
    {
      assert Spotted(s.batches, s.spots, b, i) && Spotted(s.batches, s.spots, d, j);
    }
    forall c | c in s.calls && s.calls[c].pc.Walk? ensures CallAt(s, c) {}
  }

  // ---------- memory ----------

  /** The node whose memory the next access of a call touches. */
  function Touched(pc: Pc): Option<Node> {
    match pc
    case AddInit(n) => Some(n)
    case AddSwap(n) => Some(n)
    case AddLink(n, _) => Some(n)
    case Walk(To(n)) => Some(n)
    case Drop(n, _) => Some(n)
    case Free(n, _) => Some(n)
    case _ => None
  }

  /** An announcer of an earlier epoch that still has to look at its preallocated node, which
      may be in use again. */
  predicate Stale(s: State, c: CallId)
    requires c in s.calls
  {
    s.calls[c].pc.Free? && s.calls[c].pc.node.Cached? && s.calls[c].batch < s.base
  }

  lemma TouchedIsSpotted(s: State, c: CallId)
    requires Core(s) && c in s.calls && Touched(s.calls[c].pc).Some?
    ensures
      var n := Touched(s.calls[c].pc).value;
      && Allocated(s, n) && (!Stale(s, c) ==> n in s.spots)
      && match s.calls[c].pc
         case AddLink(_, _) => n in s.spots && s.spots[n].InBatch? && n in s.mem && s.mem[n].task == c
         case Walk(_) => s.calls[c].batch < |s.takers| && n in s.spots && s.spots[n].InBatch? && s.spots[n].batch == s.calls[c].batch
         case Drop(_, _) => s.calls[c].batch < |s.takers| && n in s.spots && s.spots[n].InBatch? && s.spots[n].batch == s.calls[c].batch
         case _ => Stale(s, c) || (n in s.spots && s.spots[n] == InHand(c))
  {
    var n := Touched(s.calls[c].pc).value;
    assert CallAt(s, c) && SpotAt(s, n);
    if s.calls[c].pc.Walk? || s.calls[c].pc.Drop? {
      Ends(s, s.calls[c].batch);
    }
  }

  /** No access, and no delete, ever touches a node that is not allocated. */
  lemma MemorySafe(cacheSize: nat, acts: seq<Action>, c: CallId)
    requires !Run(Init(cacheSize), acts).wrapped
    requires var s := Run(Init(cacheSize), acts); c in s.calls && Touched(s.calls[c].pc).Some?
    ensures var s := Run(Init(cacheSize), acts); Allocated(s, Touched(s.calls[c].pc).value)
  {
    var s := Reached(cacheSize, acts);
    TouchedIsSpotted(s, c);
  }

  /** When a node is deleted, or left to its cache in the epoch in which it was taken, nobody
      can reach it any more: no other call of the epoch is about to touch it, it is not the
      head, and no node of a chain leads to it, now or once linked. */
  lemma DeleteIsFinal(cacheSize: nat, acts: seq<Action>, c: CallId, n: Node, nx: Ptr)
    requires !Run(Init(cacheSize), acts).wrapped
    requires var s := Run(Init(cacheSize), acts); c in s.calls && s.calls[c].pc == Free(n, nx) && !Stale(s, c)
    ensures
      var s := Run(Init(cacheSize), acts);
      && s.head != To(n)
      && (forall d | d in s.calls && d != c && !Stale(s, d) :: Touched(s.calls[d].pc) != Some(n))
      && (forall b, i | 0 <= b < |s.batches| && 0 <= i < |s.batches[b]| ::
            s.batches[b][i] != n && s.batches[b][i] in s.mem && Link(s, s.batches[b][i]) != To(n))
  {
    var s := Reached(cacheSize, acts);
    TouchedIsSpotted(s, c);
    ListIntegrity(cacheSize, acts);
    forall b, i | 0 <= b < |s.batches| && 0 <= i < |s.batches[b]| ensures s.batches[b][i] != n {
      assert Spotted(s.batches, s.spots, b, i);
    }
    forall d | d in s.calls && d != c && !Stale(s, d) && Touched(s.calls[d].pc).Some?
      ensures Touched(s.calls[d].pc) != Some(n)
    {
      TouchedIsSpotted(s, d);
    }
    forall b, i | 0 <= b < |s.batches| && 0 <= i < |s.batches[b]|
      ensures s.batches[b][i] in s.mem && Link(s, s.batches[b][i]) != To(n)
    {
      assert ChainOk(s, b);
    }
  }

  /** Between two resets no node of the cache is handed to two calls, and no node at all
      to a second call while the first still uses it. */
  lemma NoNodeTwice(cacheSize: nat, acts: seq<Action>, c: CallId, d: CallId)
    requires !Run(Init(cacheSize), acts).wrapped
    requires
      var s := Run(Init(cacheSize), acts);
      && c in s.calls && d in s.calls && s.calls[c].epoch == s.epoch == s.calls[d].epoch
      && s.calls[c].newHead.Some? && s.calls[c].newHead == s.calls[d].newHead
    ensures
      var s := Run(Init(cacheSize), acts);
      c == d || (s.calls[c].newHead.value.Heap? && (s.calls[c].drops != [] || s.calls[d].drops != []))
  {
    var s := Reached(cacheSize, acts);
    assert CallAt(s, c) && CallAt(s, d);
  }

  /** Why at most 2^32 nodes between two resets: beyond that, and only beyond that, the
      32-bit index is handed out twice. */
  lemma IndexWraps(n: nat)
    ensures (forall i, j | 0 <= i < j < n :: CacheIndex(i) != CacheIndex(j)) <==> n <= WORD
  {
    if n > WORD {
      assert CacheIndex(0) == CacheIndex(WORD);
    }
  }

  // ---------- progress ----------

  predicate Spinning(s: State, c: CallId) {
    && c in s.calls && s.calls[c].pc.Walk? && s.calls[c].pc.cur.To?
    && s.calls[c].pc.cur.node in s.mem
    && s.mem[s.calls[c].pc.cur.node].next == s.calls[c].pc.cur
  }

  /** The accesses a call still makes for itself, and three for each node still to announce. */
  function Weight(call: Call): nat {
    (match call.pc
     case Returned => 0
     case AddBypass => 1
     case Drop(_, _) => 2
     case Walk(_) => 3
     case Free(_, _) => 4
     case Swap => 4
     case AddRecheck => 5
     case DoneClear => 5
     case AddLink(_, _) => 6
     case DoneStore(_) => 6
     case AddSwap(_) => 7
     case AddInit(_) => 8
     case AddCreate => 9
     case AddCheck => 10)
    + if call.adds && call.drops == [] then 3 else 0
  }

  function Weights(s: State): map<nat, nat> {
    map c | c in s.calls :: Weight(s.calls[c])
  }

  ghost function Measure(s: State): nat {
    Total(Weights(s))
  }

  predicate OneCallNearer(s: State, s': State, c: CallId) {
    && c in s.calls && c in s'.calls && s'.calls == s.calls[c := s'.calls[c]]
    && Weight(s'.calls[c]) < Weight(s.calls[c])
  }

  lemma AddTouchesOneCall(s: State, c: CallId, address: nat)
    requires Enabled(s, Advance(c, address)) && BeforeSwap(s.calls[c].pc)
    requires s.calls[c].drops == []
    ensures OneCallNearer(s, Apply(s, Advance(c, address)), c)
  {
  }

  lemma AnnounceTouchesOneCall(s: State, c: CallId, address: nat)
    requires Enabled(s, Advance(c, address)) && (s.calls[c].pc.Walk? || s.calls[c].pc.Free?)
    requires !Spinning(s, c)
    ensures OneCallNearer(s, Apply(s, Advance(c, address)), c)
  {
  }

  lemma AdvanceTouchesOneCall(s: State, c: CallId, address: nat)
    requires CallAt(s, c) && Enabled(s, Advance(c, address)) && !Spinning(s, c) && !s.calls[c].pc.Drop?
    ensures OneCallNearer(s, Apply(s, Advance(c, address)), c)
  {
    if BeforeSwap(s.calls[c].pc) {
      AddTouchesOneCall(s, c, address);
    } else if Announcing(s.calls[c].pc) {
      AnnounceTouchesOneCall(s, c, address);
    }
  }

  lemma DropLowersMeasure(s: State, c: CallId, n: Node, nx: Ptr)
    requires Enabled(s, Advance(c, 0)) && s.calls[c].pc == Drop(n, nx)
    requires s.calls[s.mem[n].task].adds && s.calls[s.mem[n].task].drops == []
    ensures Measure(DoDrop(s, c, n, nx)) < Measure(s)
  {
    var s' := DoDrop(s, c, n, nx);
    var t := s.mem[n].task;
    TotalFalls(Weights(s), t, Weight(s'.calls[t]), c, Weight(s'.calls[c]));
    assert Weights(s') == Weights(s)[t := Weight(s'.calls[t])][c := Weight(s'.calls[c])];
  }

  lemma AdvanceLowersMeasure(s: State, c: CallId, address: nat)
    requires Core(s) && Enabled(s, Advance(c, address)) && !Spinning(s, c)
    ensures Measure(Apply(s, Advance(c, address))) < Measure(s)
  {
    assert CallAt(s, c);
    if s.calls[c].pc.Drop? {
      Ends(s, s.calls[c].batch);
      DropLowersMeasure(s, c, s.calls[c].pc.node, s.calls[c].pc.next);
    } else {
      var s' := Apply(s, Advance(c, address));
      AdvanceTouchesOneCall(s, c, address);
      TotalUpdate(Weights(s), c, Weight(s'.calls[c]));
      assert Weights(s') == Weights(s)[c := Weight(s'.calls[c])];
    }
  }

  /** A spinning announcer waits for one write of another call, the node's adder, that can
      always be made. */
  lemma SpinnerWaitsForLink(s: State, c: CallId)
    requires Core(s) && Spinning(s, c)
    ensures
      var adder := s.mem[s.calls[c].pc.cur.node].task;
      && adder != c && adder in s.calls && !Spinning(s, adder)
      && s.calls[adder].pc.AddLink? && s.calls[adder].pc.node == s.calls[c].pc.cur.node
      && Enabled(s, Advance(adder, 0))
  {
    assert CallAt(s, c);
    Ends(s, s.calls[c].batch);
    var b := s.calls[c].batch;
    if |s.batches[b]| > 1 {
      assert Spotted(s.batches, s.spots, b, |s.batches[b]| - 2);
    }
  }

  /** A call in progress can always make its next access. */
  lemma NeverStuck(s: State, c: CallId, address: nat)
    requires Core(s) && c in s.calls && !s.calls[c].pc.Returned? && address !in s.heap
    ensures Enabled(s, Advance(c, address))
  {
    assert CallAt(s, c);
    if Touched(s.calls[c].pc).Some? {
      TouchedIsSpotted(s, c);
      assert SpotAt(s, Touched(s.calls[c].pc).value);
    }
  }

  /** So a call in progress makes it, and the invariant stays. */
  lemma NextAccessKeeps(s: State, c: CallId)
    requires Core(s) && Givens(s) && c in s.calls && !s.calls[c].pc.Returned? && !s.calls[c].pc.AddCreate?
    ensures Enabled(s, Advance(c, 0)) && Core(Apply(s, Advance(c, 0))) && Givens(Apply(s, Advance(c, 0)))
  {
    var address := NewNumber(s.heap);
    NeverStuck(s, c, address);
    AdvanceKeepsCore(s, c, 0);
    StepKeepsGivens(s, Advance(c, 0));
  }

  /** While a call is in progress, some call can make an access that is not a spin, and
      every such access brings the end of all calls nearer. */
  lemma Progress(cacheSize: nat, acts: seq<Action>)
    requires !Run(Init(cacheSize), acts).wrapped && !AllReturned(Run(Init(cacheSize), acts))
    ensures
      var s := Run(Init(cacheSize), acts);
      exists c, address :: Enabled(s, Advance(c, address)) && !Spinning(s, c)
        && Measure(Apply(s, Advance(c, address))) < Measure(s)
  {
    var s := Reached(cacheSize, acts);
    var c :| c in s.calls && !s.calls[c].pc.Returned?;
    assert CallAt(s, c);
    if Spinning(s, c) {
      SpinnerWaitsForLink(s, c);
      AdvanceLowersMeasure(s, s.mem[s.calls[c].pc.cur.node].task, 0);
    } else {
      // memory is not exhausted: new finds an address that is not in use
      var address := NewNumber(s.heap);
      NeverStuck(s, c, address);
      AdvanceLowersMeasure(s, c, address);
    }
  }
}
