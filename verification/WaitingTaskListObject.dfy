// The lock-free list as the object the program uses: its fields are updated in place, one
// method per atomic access. Each is the step of the same call in WaitingTaskList.dfy and
// keeps its invariant, from which alone it follows that the access can be made: a caller
// only has to stand before it.

module WaitingTaskListObjects {
  import opened Basics
  import opened WaitingTaskLists
  import opened WaitingTaskListTheorems

  /** What only the proofs look at. */
  datatype History = History(
    batches: seq<seq<Node>>,
    takers: seq<CallId>,
    base: nat,
    spots: map<Node, Spot>,
    epoch: nat,
    args: seq<Option<Exc>>,
    phase: Phase,
    given: seq<CallId>,
    wrapped: bool)

  lemma ResetIsKept(s: State)
    requires Core(s) && Givens(s) && Settled(s)
    ensures Core(DoReset(s)) && Givens(DoReset(s)) && Step(s, Action.Reset) == DoReset(s)
  {
    ResetKeeps(s);
    ResetKeepsGivens(s);
  }

  lemma CreateIsKept(s: State, c: CallId, address: nat)
    requires Core(s) && Givens(s) && c in s.calls && s.calls[c].pc.AddCreate? && address !in s.heap && s.created < WORD
    ensures Core(DoAddCreate(s, c, address)) && Givens(DoAddCreate(s, c, address))
  {
    AddCreateKeeps(s, c, address);
    AddCreateKeepsGivens(s, c, address);
  }

  /** Whoever is about to be let go was not yet. */
  lemma NotYetDropped(s: State, c: CallId)
    requires Core(s) && c in s.calls && s.calls[c].pc.Drop?
    ensures var n := s.calls[c].pc.node;
      n in s.mem && s.mem[n].task in s.calls && s.calls[s.mem[n].task].drops == []
    ensures !s.waiting && s.calls[c].batch < |s.batches|
  {
    assert CallAt(s, c);
    Ends(s, s.calls[c].batch);
  }

  class WaitingTaskList {
    var head: Ptr
    var nodeCache: nat             // which array it is
    var nodeCacheSize: nat
    var lastAssignedCacheIndex: nat
    var waiting: bool
    var exceptionPtr: Option<Exc>
    var memory: map<Node, WaitNode>
    var heap: set<nat>
    var calls: map<CallId, Call>   // the calls in progress: their locals
    var history: History

    function View(): State
      reads this
    {
      var h := history;
      State(head, memory, heap, nodeCache, nodeCacheSize, lastAssignedCacheIndex, waiting, exceptionPtr, calls,
            h.batches, h.takers, h.base, h.spots, h.epoch, h.args, h.phase, h.given, h.wrapped)
    }

    /** What the results of WaitingTaskListTheorems.dfy rest on: no epoch used up the 32-bit
        counter so far. */
    ghost predicate Valid()
      reads this
    {
      !history.wrapped && lastAssignedCacheIndex <= WORD && Core(View()) && Givens(View())
    }

    constructor (initialSize: nat)
      ensures Valid() && View() == Init(initialSize)
    {
      head, nodeCache, nodeCacheSize, lastAssignedCacheIndex, waiting := Null, 0, initialSize, 0, true;
      exceptionPtr, memory, heap, calls := None, map[], {}, map[];
      history := History([[]], [], 0, map[], 0, [], Open, [], false);
    }

    method BeginAdd(c: CallId)
      requires Valid() && c !in calls
      modifies this
      ensures Valid() && View() == Step(old(View()), CallAdd(c))
      ensures c in calls && calls[c].adds && calls[c].pc == AddCheck
    {
      CallAddKeeps(View(), c);
      StepKeepsGivens(View(), CallAdd(c));
      calls := calls[c := Call(AddCheck, true, None, [], history.epoch, 0)];
    }

    method BeginDoneWaiting(c: CallId, arg: Option<Exc>)
      requires Valid() && c !in calls && history.phase.Open?
      modifies this
      ensures Valid() && View() == Step(old(View()), CallDone(c, arg))
      ensures c in calls && !calls[c].adds && calls[c].pc == DoneStore(arg)
    {
      CallDoneKeeps(View(), c, arg);
      StepKeepsGivens(View(), CallDone(c, arg));
      calls := calls[c := Call(DoneStore(arg), false, None, [], history.epoch, 0)];
      history := history.(phase := Closing(c), args := history.args + [arg]);
    }

    method CheckWaiting(c: CallId)
      requires Valid() && c in calls && calls[c].pc.AddCheck?
      modifies this
      ensures Valid() && View() == Step(old(View()), Advance(c, 0))
      ensures calls[c].pc == if waiting then AddCreate else AddBypass
    {
      NextAccessKeeps(View(), c);
      calls := calls[c := calls[c].(pc := if waiting then AddCreate else AddBypass)];
    }

    /** After doneWaiting: its only decrement, with the exception given there. */
    method LetGoAtOnce(c: CallId)
      requires Valid() && c in calls && calls[c].pc.AddBypass?
      modifies this
      ensures Valid() && View() == Step(old(View()), Advance(c, 0))
      ensures !waiting && calls[c].drops == [exceptionPtr] && calls[c].pc.Returned?
    {
      assert CallAt(View(), c);
      NextAccessKeeps(View(), c);
      calls := calls[c := calls[c].(pc := Returned, drops := calls[c].drops + [exceptionPtr])];
    }

    method CreateNode(c: CallId, address: nat)
      requires Valid() && c in calls && calls[c].pc.AddCreate? && address !in heap
      modifies this
      ensures View() == Step(old(View()), Advance(c, address))
      ensures old(lastAssignedCacheIndex) < WORD ==> Valid()
      ensures lastAssignedCacheIndex == old(lastAssignedCacheIndex) + 1
      ensures var index := CacheIndex(old(lastAssignedCacheIndex));
        calls[c].pc == AddInit(if index < nodeCacheSize then Cached(nodeCache, index) else Heap(address))
    {
      ghost var next := DoAddCreate(View(), c, address);
      if lastAssignedCacheIndex < WORD {
        CreateIsKept(View(), c, address);
      }
      var index := CacheIndex(lastAssignedCacheIndex);
      lastAssignedCacheIndex := lastAssignedCacheIndex + 1;
      var n: Node;
      if index < nodeCacheSize {
        n := Cached(nodeCache, index);
      } else {
        n := Heap(address);
        heap := heap + {address};
      }
      calls := calls[c := calls[c].(pc := AddInit(n), newHead := Some(n))];
      history := history.(
        spots := history.spots[n := InHand(c)],
        given := history.given + [c],
        wrapped := history.wrapped || lastAssignedCacheIndex > WORD);
      assert View() == next;
    }

    method InitNode(c: CallId)
      requires Valid() && c in calls && calls[c].pc.AddInit?
      modifies this
      ensures Valid() && View() == Step(old(View()), Advance(c, 0))
      ensures var n := old(calls)[c].pc.node;
        calls[c].pc == AddSwap(n) && memory == old(memory)[n := WaitNode(c, To(n))]
    {
      NextAccessKeeps(View(), c);
      var n := calls[c].pc.node;
      memory := memory[n := WaitNode(c, To(n))];
      calls := calls[c := calls[c].(pc := AddSwap(n))];
    }

    method ExchangeHead(c: CallId)
      requires Valid() && c in calls && calls[c].pc.AddSwap?
      modifies this
      ensures Valid() && View() == Step(old(View()), Advance(c, 0))
      ensures var n := old(calls)[c].pc.node; head == To(n) && calls[c].pc == AddLink(n, old(head))
    {
      NextAccessKeeps(View(), c);
      var n, oldHead := calls[c].pc.node, head;
      head := To(n);
      calls := calls[c := calls[c].(pc := AddLink(n, oldHead))];
      var last := |history.batches| - 1;
      var chain := history.batches[last];
      history := history.(
        spots := history.spots[n := InBatch(last, |chain|)],
        batches := history.batches[last := chain + [n]]);
    }

    method SetNextNode(c: CallId)
      requires Valid() && c in calls && calls[c].pc.AddLink?
      modifies this
      ensures Valid() && View() == Step(old(View()), Advance(c, 0))
      ensures var n, oldHead := old(calls)[c].pc.node, old(calls)[c].pc.prev;
        && n in old(memory) && memory == old(memory)[n := old(memory)[n].(next := oldHead)]
        && calls[c].pc == if oldHead.To? then Returned else AddRecheck
    {
      NextAccessKeeps(View(), c);
      var n, oldHead := calls[c].pc.node, calls[c].pc.prev;
      memory := memory[n := memory[n].(next := oldHead)];
      calls := calls[c := calls[c].(pc := if oldHead.To? then Returned else AddRecheck)];
    }

    method RecheckWaiting(c: CallId)
      requires Valid() && c in calls && calls[c].pc.AddRecheck?
      modifies this
      ensures Valid() && View() == Step(old(View()), Advance(c, 0))
      ensures calls[c].pc == if waiting then Returned else Swap
    {
      NextAccessKeeps(View(), c);
      calls := calls[c := calls[c].(pc := if waiting then Returned else Swap)];
    }

    method StoreException(c: CallId)
      requires Valid() && c in calls && calls[c].pc.DoneStore?
      modifies this
      ensures Valid() && View() == Step(old(View()), Advance(c, 0))
      ensures exceptionPtr == old(calls)[c].pc.arg && waiting == old(waiting) && calls[c].pc == DoneClear
    {
      NextAccessKeeps(View(), c);
      exceptionPtr := calls[c].pc.arg;
      calls := calls[c := calls[c].(pc := DoneClear)];
    }

    method ClearWaiting(c: CallId)
      requires Valid() && c in calls && calls[c].pc.DoneClear?
      modifies this
      ensures Valid() && View() == Step(old(View()), Advance(c, 0))
      ensures !waiting && exceptionPtr == old(exceptionPtr) && calls[c].pc == Swap
    {
      NextAccessKeeps(View(), c);
      waiting := false;
      calls := calls[c := calls[c].(pc := Swap)];
    }

    method TakeChain(c: CallId)
      requires Valid() && c in calls && calls[c].pc.Swap?
      modifies this
      ensures Valid() && View() == Step(old(View()), Advance(c, 0))
      ensures head == Null && calls[c].pc == Walk(old(head))
    {
      NextAccessKeeps(View(), c);
      calls := calls[c := calls[c].(pc := Walk(head), batch := |history.batches| - 1)];
      head := Null;
      history := history.(
        batches := history.batches + [[]],
        takers := history.takers + [c],
        phase := if history.phase == Closing(c) then Closed else history.phase);
    }

    /** It returns when all of its chain is announced. */
    method FollowLink(c: CallId)
      requires Valid() && c in calls && calls[c].pc.Walk?
      modifies this
      ensures Valid() && View() == Step(old(View()), Advance(c, 0))
      ensures var cur := old(calls)[c].pc.cur;
        if cur.Null? then calls[c].pc == Returned
        else && cur.node in memory
             && calls[c].pc == if memory[cur.node].next == cur then Walk(cur) else Drop(cur.node, memory[cur.node].next)
      ensures calls[c].pc.Returned? ==>
        calls[c].batch < |history.takers| < |history.batches| && history.takers[calls[c].batch] == c
        && history.batches[calls[c].batch] == []
    {
      assert CallAt(View(), c);
      NextAccessKeeps(View(), c);
      var cur := calls[c].pc.cur;
      if cur.Null? {
        calls := calls[c := calls[c].(pc := Returned)];
      } else if memory[cur.node].next != cur {
        calls := calls[c := calls[c].(pc := Drop(cur.node, memory[cur.node].next))];
      }
    }

    /** The one decrement for the holder in the node, with the exception of doneWaiting. */
    method DecrementTask(c: CallId)
      requires Valid() && c in calls && calls[c].pc.Drop?
      modifies this
      ensures Valid() && View() == Step(old(View()), Advance(c, 0))
      ensures var n := old(calls[c].pc.node);
        n in memory && memory[n].task in calls && !waiting && calls[memory[n].task].drops == [exceptionPtr]
    {
      NotYetDropped(View(), c);
      NextAccessKeeps(View(), c);
      ghost var next := Step(View(), Advance(c, 0));
      var n := calls[c].pc.node;
      var t := memory[n].task;
      var b := calls[c].batch;
      var chain := history.batches[b];
      calls := calls[t := calls[t].(drops := calls[t].drops + [exceptionPtr])];
      calls := calls[c := calls[c].(pc := Free(n, calls[c].pc.next))];
      history := history.(
        batches := history.batches[b := if chain == [] then [] else chain[..|chain| - 1]],
        spots := history.spots[n := InHand(c)]);
      assert View() == next;
    }

    method DeleteNode(c: CallId)
      requires Valid() && c in calls && calls[c].pc.Free?
      modifies this
      ensures Valid() && View() == Step(old(View()), Advance(c, 0))
      ensures var n, next := old(calls)[c].pc.node, old(calls)[c].pc.next;
        calls[c].pc == Walk(next) && heap == if n.Heap? then old(heap) - {n.address} else old(heap)
    {
      NextAccessKeeps(View(), c);
      var n := calls[c].pc.node;
      if n.Heap? {
        heap := heap - {n.address};
      }
      calls := calls[c := calls[c].(pc := Walk(calls[c].pc.next))];
      if n in history.spots && history.spots[n] == InHand(c) {
        history := history.(spots := history.spots - {n});
      }
    }

    /** What may be in progress meanwhile is what ResetExactly says. */
    method Reset()
      requires Valid() && Settled(View())
      modifies this
      ensures Valid() && View() == Step(old(View()), Action.Reset)
      ensures exceptionPtr == None && waiting && lastAssignedCacheIndex == 0 && calls == old(calls)
      ensures var seen := CacheIndex(old(lastAssignedCacheIndex));
        nodeCacheSize == if seen > old(nodeCacheSize) then seen else old(nodeCacheSize)
    {
      ghost var next := DoReset(View());
      ResetIsKept(View());
      exceptionPtr := None;
      waiting := true;
      var nSeenTasks := CacheIndex(lastAssignedCacheIndex);
      lastAssignedCacheIndex := 0;
      if nSeenTasks > nodeCacheSize {
        nodeCacheSize := nSeenTasks;
        nodeCache := nodeCache + 1;
      }
      history := history.(
        args := if history.phase.Open? then history.args + [None] else history.args,
        phase := Open,
        epoch := history.epoch + 1,
        base := |history.takers|,
        spots := map n | n in history.spots && n.Heap? :: history.spots[n],
        given := []);
      assert View() == next;
    }
  }
}
