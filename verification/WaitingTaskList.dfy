// The lock-free list of waiting tasks. One action is one atomic access of one call in
// progress; any number of calls of add, and one call of doneWaiting between two resets,
// interleave freely. A holder handed to add is one unit of its task's reference count,
// so the unit is named by the call that brought it.

module WaitingTaskLists {
  import opened Basics

  type CallId = nat

  /** Where a WaitNode lives: in a preallocated cache or on the heap. A heap address
      may be handed out again after it was freed. */
  datatype Node = Cached(cache: nat, index: nat) | Heap(address: nat)

  datatype Ptr = Null | To(node: Node)

  datatype WaitNode = WaitNode(task: CallId, next: Ptr)

  /** The next atomic access of a call, with the locals it still needs. */
  datatype Pc =
    | AddCheck                          // if(!m_waiting)
    | AddBypass                         // let the holder go at once
    | AddCreate                         // m_lastAssignedCacheIndex++
    | AddInit(node: Node)               // fill the node, link it to itself
    | AddSwap(node: Node)               // m_head.exchange(newHead)
    | AddLink(node: Node, prev: Ptr)    // newHead->setNextNode(oldHead)
    | AddRecheck                        // if(!m_waiting) after linking to null
    | DoneStore(arg: Option<Exc>)       // m_exceptionPtr = iPtr
    | DoneClear                         // m_waiting = false
    | Swap                              // m_head.exchange(0)
    | Walk(cur: Ptr)                    // next = n->nextNode(), spinning on a self link
    | Drop(node: Node, next: Ptr)       // let n's task go
    | Free(node: Node, next: Ptr)       // delete n unless it is from the cache
    | Returned

  /** One call of add or doneWaiting. History: the node it filled, the exception passed
      with each decrement made for its holder, its epoch and the batch it took. */
  datatype Call = Call(
    pc: Pc, adds: bool, newHead: Option<Node>, drops: seq<Option<Exc>>, epoch: nat, batch: nat)

  /** Where a live node is: only its holder can reach it, or it is in a chain of nodes. */
  datatype Spot = InHand(call: CallId) | InBatch(batch: nat, height: nat)

  /** doneWaiting since the last reset: not called, called but not yet at the head, past it. */
  datatype Phase = Open | Closing(closer: CallId) | Closed

  /** The list, its memory and its calls; `cacheId` is the cache that it has, each reset that
      makes a larger one deleting the one before. History: `batches` are the chains of nodes,
      bottom node first, numbered by the exchange that takes them from the head, the last
      being the one still at the head; `takers` who took them, those below `base` before the
      last reset; `spots` the place of every live node; `args` the argument of doneWaiting in
      each epoch; `given` the calls that createNode served in this epoch; `wrapped` that an
      epoch used up the 32-bit counter. */
  datatype State = State(
    head: Ptr,
    mem: map<Node, WaitNode>,
    heap: set<nat>,
    cacheId: nat,
    cacheSize: nat,
    created: nat,
    waiting: bool,
    exc: Option<Exc>,
    calls: map<CallId, Call>,
    batches: seq<seq<Node>>,
    takers: seq<CallId>,
    base: nat,
    spots: map<Node, Spot>,
    epoch: nat,
    args: seq<Option<Exc>>,
    phase: Phase,
    given: seq<CallId>,
    wrapped: bool)

  datatype Action =
    | CallAdd(call: CallId)
    | CallDone(call: CallId, arg: Option<Exc>)
    | Advance(call: CallId, address: nat)   // address: what new returns, if it is called
    | Reset

  // The cache index is a 32-bit unsigned counter.
  const WORD: nat := 0x1_0000_0000

  function CacheIndex(created: nat): nat {
    created % WORD
  }

  function Init(cacheSize: nat): State {
    State(Null, map[], {}, 0, cacheSize, 0, true, None, map[], [[]], [], 0, map[], 0, [], Open, [], false)
  }

  function Top(chain: seq<Node>): Ptr {
    if chain == [] then Null else To(chain[|chain| - 1])
  }

  predicate AllReturned(s: State) {
    forall c | c in s.calls :: s.calls[c].pc.Returned?
  }

  /** More nodes were handed out than the cache has: reset will make a larger one. */
  predicate Grows(s: State) {
    CacheIndex(s.created) > s.cacheSize
  }

  /** A call with nothing more to do to the list, if it is opened again: it has returned, or is
      an adder whose holder was let go and that has still to look again, or an announcer at the
      end of its chain, whose last node, if it still has to look at it, will not be deleted. */
  predicate Harmless(s: State, pc: Pc) {
    || pc.Returned? || pc.AddRecheck? || pc == Walk(Null)
    || (pc.Free? && pc.next == Null && (pc.node.Cached? ==> !Grows(s)))
  }

  predicate Settled(s: State) {
    s.head == Null && forall c | c in s.calls :: Harmless(s, s.calls[c].pc)
  }

  function Goto(s: State, c: CallId, pc: Pc): State
    requires c in s.calls
  {
    s.(calls := s.calls[c := s.calls[c].(pc := pc)])
  }

  // ---------- the steps ----------

  predicate Enabled(s: State, a: Action) {
    match a
    case CallAdd(c) => c !in s.calls
    case CallDone(c, _) => c !in s.calls && s.phase.Open?
    case Advance(c, address) =>
      && c in s.calls
      && (match s.calls[c].pc
          case Returned => false
          case AddCreate => address !in s.heap
          case AddSwap(_) => s.batches != []
          case AddLink(n, _) => n in s.mem
          case Swap => s.batches != []
          case Walk(cur) => cur.To? ==> cur.node in s.mem
          case Drop(n, _) => n in s.mem && s.mem[n].task in s.calls && s.calls[c].batch < |s.batches|
          case _ => true)
    // reset asserts that the head is null; which other calls may be in progress is the
    // subject of ResetExactly
    case Reset => Settled(s)
  }

  function DoCallAdd(s: State, c: CallId): State {
    s.(calls := s.calls[c := Call(AddCheck, true, None, [], s.epoch, 0)])
  }

  function DoCallDone(s: State, c: CallId, arg: Option<Exc>): State {
    s.(calls := s.calls[c := Call(DoneStore(arg), false, None, [], s.epoch, 0)],
       phase := Closing(c), args := s.args + [arg])
  }

  function DoReset(s: State): State {
    s.(exc := None, waiting := true, created := 0, given := [], phase := Open, epoch := s.epoch + 1,
       cacheSize := if Grows(s) then CacheIndex(s.created) else s.cacheSize,
       cacheId := if Grows(s) then s.cacheId + 1 else s.cacheId,
       base := |s.takers|, spots := map n | n in s.spots && n.Heap? :: s.spots[n],
       args := if s.phase.Open? then s.args + [None] else s.args)
  }

  function DoAddCheck(s: State, c: CallId): State
    requires c in s.calls
  {
    Goto(s, c, if s.waiting then AddCreate else AddBypass)
  }

  /** Either iTask.doneWaiting(m_exceptionPtr) or the destructor of the holder. */
  function DoAddBypass(s: State, c: CallId): State
    requires c in s.calls
  {
    s.(calls := s.calls[c := s.calls[c].(pc := Returned, drops := s.calls[c].drops + [s.exc])])
  }

  function DoAddCreate(s: State, c: CallId, address: nat): State
    requires c in s.calls
  {
    var index := CacheIndex(s.created);
    var n := if index < s.cacheSize then Cached(s.cacheId, index) else Heap(address);
    s.(created := s.created + 1, given := s.given + [c],
       heap := if n.Heap? then s.heap + {address} else s.heap,
       calls := s.calls[c := s.calls[c].(pc := AddInit(n), newHead := Some(n))],
       spots := s.spots[n := InHand(c)],
       wrapped := s.wrapped || s.created >= WORD)
  }

  function DoAddInit(s: State, c: CallId, n: Node): State
    requires c in s.calls
  {
    Goto(s, c, AddSwap(n)).(mem := s.mem[n := WaitNode(c, To(n))])
  }

  function DoAddSwap(s: State, c: CallId, n: Node): State
    requires c in s.calls && s.batches != []
  {
    var last := |s.batches| - 1;
    Goto(s, c, AddLink(n, s.head)).(
      head := To(n),
      batches := s.batches[last := s.batches[last] + [n]],
      spots := s.spots[n := InBatch(last, |s.batches[last]|)])
  }

  function DoAddLink(s: State, c: CallId, n: Node, prev: Ptr): State
    requires c in s.calls && n in s.mem
  {
    Goto(s, c, if prev.To? then Returned else AddRecheck).(
      mem := s.mem[n := s.mem[n].(next := prev)])
  }

  function DoAddRecheck(s: State, c: CallId): State
    requires c in s.calls
  {
    Goto(s, c, if s.waiting then Returned else Swap)
  }

  function DoDoneStore(s: State, c: CallId, arg: Option<Exc>): State
    requires c in s.calls
  {
    Goto(s, c, DoneClear).(exc := arg)
  }

  function DoDoneClear(s: State, c: CallId): State
    requires c in s.calls
  {
    Goto(s, c, Swap).(waiting := false)
  }

  function DoSwap(s: State, c: CallId): State
    requires c in s.calls && s.batches != []
  {
    s.(head := Null,
       calls := s.calls[c := s.calls[c].(pc := Walk(s.head), batch := |s.batches| - 1)],
       batches := s.batches + [[]], takers := s.takers + [c],
       phase := if s.phase == Closing(c) then Closed else s.phase)
  }

  function DoWalk(s: State, c: CallId, cur: Ptr): State
    requires c in s.calls && (cur.To? ==> cur.node in s.mem)
  {
    if cur.Null? then Goto(s, c, Returned)
    else if s.mem[cur.node].next == cur then s
    else Goto(s, c, Drop(cur.node, s.mem[cur.node].next))
  }

  function DoDrop(s: State, c: CallId, n: Node, nx: Ptr): State
    requires c in s.calls && n in s.mem && s.mem[n].task in s.calls && s.calls[c].batch < |s.batches|
  {
    var t := s.mem[n].task;
    var b := s.calls[c].batch;
    var chain := s.batches[b];
    var calls := s.calls[t := s.calls[t].(drops := s.calls[t].drops + [s.exc])];
    s.(calls := calls[c := calls[c].(pc := Free(n, nx))],
       batches := s.batches[b := if chain == [] then [] else chain[..|chain| - 1]],
       spots := s.spots[n := InHand(c)])
  }

  function DoFree(s: State, c: CallId, n: Node, nx: Ptr): State
    requires c in s.calls
  {
    Goto(s, c, Walk(nx)).(
      heap := if n.Heap? then s.heap - {n.address} else s.heap,
      spots := if n in s.spots && s.spots[n] == InHand(c) then s.spots - {n} else s.spots)
  }

  function Apply(s: State, a: Action): State
    requires Enabled(s, a)
  {
    match a
    case CallAdd(c) => DoCallAdd(s, c)
    case CallDone(c, arg) => DoCallDone(s, c, arg)
    case Reset => DoReset(s)
    case Advance(c, address) =>
      match s.calls[c].pc
      case AddCheck => DoAddCheck(s, c)
      case AddBypass => DoAddBypass(s, c)
      case AddCreate => DoAddCreate(s, c, address)
      case AddInit(n) => DoAddInit(s, c, n)
      case AddSwap(n) => DoAddSwap(s, c, n)
      case AddLink(n, prev) => DoAddLink(s, c, n, prev)
      case AddRecheck => DoAddRecheck(s, c)
      case DoneStore(arg) => DoDoneStore(s, c, arg)
      case DoneClear => DoDoneClear(s, c)
      case Swap => DoSwap(s, c)
      case Walk(cur) => DoWalk(s, c, cur)
      case Drop(n, nx) => DoDrop(s, c, n, nx)
      case Free(n, nx) => DoFree(s, c, n, nx)
  }

  /** An action that is not enabled does nothing. */
  function Step(s: State, a: Action): State {
    if Enabled(s, a) then Apply(s, a) else s
  }

  /** Every reachable state is Run(Init(n), acts) for some n and some actions. */
  function Run(s: State, acts: seq<Action>): State
    decreases |acts|
  {
    if acts == [] then s else Run(Step(s, acts[0]), acts[1..])
  }

  // ---------- the invariant ----------

  /** Memory that was not freed. */
  predicate Allocated(s: State, n: Node) {
    match n
    case Cached(k, i) => k == s.cacheId && i < s.cacheSize
    case Heap(a) => a in s.heap
  }

  /** Handed out by createNode since the last reset, or on the heap. */
  predicate HandedOut(s: State, n: Node) {
    Allocated(s, n) && (n.Cached? ==> n.index < s.created)
  }

  function Below(s: State, b: nat, i: nat): Ptr
    requires b < |s.batches| && i <= |s.batches[b]|
  {
    if i == 0 then Null else To(s.batches[b][i - 1])
  }

  /** A node in a chain holds the unit of a call that is past its exchange, and the link
      its adder has written, or is about to write while the node still points to itself,
      leads to the node below. */
  predicate NodeOk(s: State, n: Node, b: nat, i: nat) {
    && b < |s.batches| && i < |s.batches[b]| && s.batches[b][i] == n
    && n in s.mem && s.mem[n].task in s.calls
    && var call := s.calls[s.mem[n].task];
    && call.adds && call.newHead == Some(n) && call.drops == [] && call.epoch == s.epoch
    && !BeforeSwap(call.pc)
    && if call.pc.AddLink?
       then call.pc.node == n && s.mem[n].next == To(n) && call.pc.prev == Below(s, b, i)
       else s.mem[n].next == Below(s, b, i)
  }

  predicate BeforeSwap(pc: Pc) {
    pc.AddCheck? || pc.AddBypass? || pc.AddCreate? || pc.AddInit? || pc.AddSwap?
  }

  predicate Announcing(pc: Pc) {
    pc.Walk? || pc.Drop? || pc.Free?
  }

  predicate Holding(pc: Pc, n: Node) {
    (pc.AddInit? || pc.AddSwap? || pc.Free?) && pc.node == n
  }

  predicate SpotOk(s: State, n: Node, spot: Spot) {
    match spot
    case InHand(c) => c in s.calls && Holding(s.calls[c].pc, n)
    case InBatch(b, i) => NodeOk(s, n, b, i)
  }

  predicate SpotAt(s: State, n: Node) {
    n in s.spots ==> HandedOut(s, n) && SpotOk(s, n, s.spots[n])
  }

  predicate Spotted(batches: seq<seq<Node>>, spots: map<Node, Spot>, b: nat, i: nat)
    requires b < |batches| && i < |batches[b]|
  {
    batches[b][i] in spots && spots[batches[b][i]] == InBatch(b, i)
  }

  ghost predicate Places(s: State) {
    && (forall n {:trigger SpotAt(s, n)} :: SpotAt(s, n))
    && (forall b, i {:trigger Spotted(s.batches, s.spots, b, i)}
          | 0 <= b < |s.batches| && 0 <= i < |s.batches[b]| :: Spotted(s.batches, s.spots, b, i))
    && (forall a | a in s.heap :: Heap(a) in s.spots)
  }

  /** What is known of a call by the access it is about to make. */
  predicate PcOk(s: State, c: CallId, call: Call) {
    match call.pc
    case AddCheck => call.newHead == None
    case AddBypass => !s.waiting && call.newHead == None
    case AddCreate => call.newHead == None
    case AddInit(n) => n in s.spots && s.spots[n] == InHand(c) && call.newHead == Some(n)
    case AddSwap(n) =>
      && n in s.spots && s.spots[n] == InHand(c) && call.newHead == Some(n)
      && n in s.mem && s.mem[n] == WaitNode(c, To(n))
    case AddLink(n, _) => call.newHead == Some(n)
    case AddRecheck => true
    case DoneStore(arg) => s.phase == Closing(c) && s.epoch < |s.args| && arg == s.args[s.epoch]
    case DoneClear => s.phase == Closing(c)
    case Swap => !s.waiting && (!call.adds ==> s.phase == Closing(c))
    case Returned => true
    case Walk(cur) => Took(s, c, call) && cur == Top(s.batches[call.batch])
    case Drop(n, nx) =>
      && Took(s, c, call)
      && var chain := s.batches[call.batch];
      && chain != [] && n == chain[|chain| - 1] && nx == Top(chain[..|chain| - 1])
      && n in s.mem && s.mem[n].next != To(n)
    case Free(n, nx) =>
      && Took(s, c, call) && nx == Top(s.batches[call.batch])
      && (if n.Heap? || call.batch >= s.base then n in s.spots && s.spots[n] == InHand(c) else Allocated(s, n))
  }

  /** The call took a chain, of this epoch only after the list was closed. */
  predicate Took(s: State, c: CallId, call: Call) {
    && call.batch < |s.takers| < |s.batches| && s.takers[call.batch] == c
    && (call.batch >= s.base ==> !s.waiting && (call.adds || s.phase.Closed?))
  }

  /** What only a call of this epoch does. */
  predicate Current(call: Call) {
    || BeforeSwap(call.pc) || call.pc.AddLink? || call.pc.DoneStore? || call.pc.DoneClear?
    || (call.adds && call.drops == [])
  }

  predicate CallOk(s: State, c: CallId, call: Call) {
    && PcOk(s, c, call)
    && (BeforeSwap(call.pc) || call.pc.AddLink? || call.pc.AddRecheck? ==> call.adds)
    && (call.pc.DoneStore? || call.pc.DoneClear? ==> !call.adds)
    && (!call.adds ==> call.newHead == None)
    // units of the reference count: with the call, in a chain, or let go exactly once
    && (BeforeSwap(call.pc) || call.pc.AddLink? ==> call.drops == [])
    && (call.adds && call.drops == [] && !BeforeSwap(call.pc) ==>
          && call.newHead.Some? && call.newHead.value in s.spots
          && s.spots[call.newHead.value].InBatch?
          && call.newHead.value in s.mem && s.mem[call.newHead.value].task == c)
    && (call.drops != [] ==> call.epoch < |s.args| && call.drops == [s.args[call.epoch]])
    && call.epoch <= s.epoch
    && (Current(call) ==> call.epoch == s.epoch)
    && (call.epoch == s.epoch && call.newHead.Some? && call.newHead.value.Cached? ==>
          call.newHead.value.index < |s.given| && s.given[call.newHead.value.index] == c)
  }

  predicate Phases(s: State) {
    && |s.given| == s.created
    && |s.args| == (if s.phase.Open? then s.epoch else s.epoch + 1)
    && match s.phase
       case Open => s.waiting
       case Closed => !s.waiting && s.exc == s.args[s.epoch]
       case Closing(d) =>
         && d in s.calls && !s.calls[d].adds
         && match s.calls[d].pc
            case DoneStore(_) => s.waiting
            case DoneClear => s.waiting && s.exc == s.args[s.epoch]
            case Swap => !s.waiting && s.exc == s.args[s.epoch]
            case _ => false
  }

  predicate Takers(s: State) {
    && |s.batches| == |s.takers| + 1 && s.base <= |s.takers|
    && s.head == Top(s.batches[|s.takers|])
    && (forall b | 0 <= b < |s.takers| ::
          && s.takers[b] in s.calls
          && (s.batches[b] != [] ==>
                s.calls[s.takers[b]].batch == b && Announcing(s.calls[s.takers[b]].pc)))
    && (forall b | 0 <= b < s.base :: s.batches[b] == [])
  }

  /** No lost wakeup: once doneWaiting is past the head, whoever started the chain now
      at the head has still to announce it. */
  predicate Wakeup(s: State) {
    s.phase.Closed? && s.batches != [] && s.batches[|s.batches| - 1] != [] ==>
      var n := s.batches[|s.batches| - 1][0];
      && n in s.mem && s.mem[n].task in s.calls
      && var pc := s.calls[s.mem[n].task].pc;
      (pc.AddLink? && pc.prev == Null) || pc.AddRecheck? || pc.Swap?
  }

  predicate CallAt(s: State, c: CallId) {
    c in s.calls ==> CallOk(s, c, s.calls[c])
  }

  ghost predicate Calls(s: State) {
    forall c {:trigger CallAt(s, c)} :: CallAt(s, c)
  }

  ghost predicate Core(s: State) {
    Places(s) && Calls(s) && Phases(s) && Takers(s) && Wakeup(s)
  }

  /** createNode served each call once, those of this epoch. */
  predicate GivenAt(s: State, i: nat) {
    i < |s.given| ==>
      s.given[i] in s.calls && s.calls[s.given[i]].newHead.Some? && s.calls[s.given[i]].epoch == s.epoch
  }

  predicate HasAt(s: State, c: CallId) {
    c in s.calls && s.calls[c].epoch == s.epoch && s.calls[c].newHead.Some? ==> c in s.given
  }

  ghost predicate Givens(s: State) {
    && (forall i: nat {:trigger GivenAt(s, i)} :: GivenAt(s, i))
    && (forall c {:trigger HasAt(s, c)} :: HasAt(s, c))
    && (forall i, j | 0 <= i < j < |s.given| :: s.given[i] != s.given[j])
    && (forall c | c in s.calls :: s.calls[c].epoch <= s.epoch)
    && (forall c | c in s.calls && s.calls[c].pc.AddCreate? :: s.calls[c].newHead == None && s.calls[c].epoch == s.epoch)
  }

  /** The counter of createNode must not wrap: at most 2^32 nodes between two resets. */
  ghost predicate Inv(s: State) {
    !s.wrapped ==> s.created <= WORD && Core(s) && Givens(s)
  }

  // ---------- every step keeps the invariant ----------

  /** A call that is there keeps its node, and reaches createNode without one. */
  predicate SameHead(s: State, s': State, c: CallId) {
    if c in s.calls then
      && c in s'.calls && s'.calls[c].newHead == s.calls[c].newHead && s'.calls[c].epoch == s.calls[c].epoch
      && (s'.calls[c].pc.AddCreate? ==> s.calls[c].pc.AddCreate? || s.calls[c].pc.AddCheck?)
    else
      c in s'.calls ==> s'.calls[c].newHead == None && s'.calls[c].epoch == s.epoch && !s'.calls[c].pc.AddCreate?
  }

  /** Whom createNode served changes only when it serves, and at a reset. */
  lemma GivensStay(s: State, s': State)
    requires Core(s) && Givens(s) && s'.given == s.given && s'.epoch == s.epoch
    requires forall c :: SameHead(s, s', c)
    ensures Givens(s')
  {
    forall i: nat ensures GivenAt(s', i) {
      assert GivenAt(s, i) && (i < |s.given| ==> SameHead(s, s', s.given[i]));
    }
    forall c ensures HasAt(s', c) {
      assert HasAt(s, c) && SameHead(s, s', c);
    }
    forall c | c in s'.calls
      ensures s'.calls[c].epoch <= s.epoch
      ensures s'.calls[c].pc.AddCreate? ==> s'.calls[c].newHead == None && s'.calls[c].epoch == s.epoch
    {
      assert SameHead(s, s', c) && CallAt(s, c);
    }
  }

  lemma AddSameHead(s: State, c: CallId, address: nat, d: CallId)
    requires Enabled(s, Advance(c, address)) && !s.calls[c].pc.AddCreate?
    requires BeforeSwap(s.calls[c].pc) || s.calls[c].pc.AddLink? || s.calls[c].pc.AddRecheck?
    ensures SameHead(s, Apply(s, Advance(c, address)), d)
  {
  }

  lemma DoneSameHead(s: State, c: CallId, address: nat, d: CallId)
    requires Enabled(s, Advance(c, address))
    requires s.calls[c].pc.DoneStore? || s.calls[c].pc.DoneClear? || s.calls[c].pc.Swap? || s.calls[c].pc.Free?
    ensures SameHead(s, Apply(s, Advance(c, address)), d)
  {
  }

  lemma WalkSameHead(s: State, c: CallId, address: nat, d: CallId)
    requires Enabled(s, Advance(c, address)) && (s.calls[c].pc.Walk? || s.calls[c].pc.Drop?)
    ensures SameHead(s, Apply(s, Advance(c, address)), d)
  {
  }

  lemma AdvanceSameHead(s: State, c: CallId, address: nat, d: CallId)
    requires Enabled(s, Advance(c, address)) && !s.calls[c].pc.AddCreate?
    ensures SameHead(s, Apply(s, Advance(c, address)), d)
  {
    if BeforeSwap(s.calls[c].pc) || s.calls[c].pc.AddLink? || s.calls[c].pc.AddRecheck? {
      AddSameHead(s, c, address, d);
    } else if s.calls[c].pc.Walk? || s.calls[c].pc.Drop? {
      WalkSameHead(s, c, address, d);
    } else {
      DoneSameHead(s, c, address, d);
    }
  }

  lemma AddCreateKeepsGivens(s: State, c: CallId, address: nat)
    requires Givens(s) && c in s.calls && s.calls[c].pc.AddCreate?
    ensures Givens(DoAddCreate(s, c, address))
  {
    var s' := DoAddCreate(s, c, address);
    forall i: nat ensures GivenAt(s', i) {
      assert GivenAt(s, i);
    }
    forall d ensures HasAt(s', d) {
      assert HasAt(s, d);
    }
    forall i: nat | i < |s.given| ensures s.given[i] != c {
      assert GivenAt(s, i);
    }
  }

  lemma ResetKeepsGivens(s: State)
    requires Givens(s) && forall c | c in s.calls :: !s.calls[c].pc.AddCreate?
    ensures Givens(DoReset(s))
  {
  }

  lemma StepKeepsGivens(s: State, a: Action)
    requires Core(s) && Givens(s) && Enabled(s, a)
    ensures Givens(Apply(s, a))
  {
    if a.Reset? {
      ResetKeepsGivens(s);
    } else if a.Advance? && s.calls[a.call].pc.AddCreate? {
      AddCreateKeepsGivens(s, a.call, a.address);
    } else {
      forall d ensures SameHead(s, Apply(s, a), d) {
        if a.Advance? { AdvanceSameHead(s, a.call, a.address, d); }
      }
      GivensStay(s, Apply(s, a));
    }
  }

  /** The nodes at both ends of a chain. */
  lemma Ends(s: State, b: nat)
    requires Core(s) && b < |s.batches| && s.batches[b] != []
    ensures
      var chain := s.batches[b];
      && NodeOk(s, chain[0], b, 0) && NodeOk(s, chain[|chain| - 1], b, |chain| - 1)
      && Spotted(s.batches, s.spots, b, 0) && Spotted(s.batches, s.spots, b, |chain| - 1)
  {
    var chain := s.batches[b];
    assert Spotted(s.batches, s.spots, b, 0) && Spotted(s.batches, s.spots, b, |chain| - 1);
    assert SpotAt(s, chain[0]) && SpotAt(s, chain[|chain| - 1]);
  }

  lemma HeadEnds(s: State)
    requires Core(s)
    ensures s.batches[|s.takers|] != [] ==>
      && NodeOk(s, s.batches[|s.takers|][0], |s.takers|, 0)
      && Spotted(s.batches, s.spots, |s.takers|, 0)
  {
    if s.batches[|s.takers|] != [] { Ends(s, |s.takers|); }
  }

  lemma CallAddKeeps(s: State, c: CallId)
    requires Core(s) && c !in s.calls
    ensures Core(DoCallAdd(s, c))
  {
    var s' := DoCallAdd(s, c);
    HeadEnds(s);
    forall d | d != c ensures CallAt(s', d) {
      assert CallAt(s, d);
    }
    assert CallAt(s', c);
    forall n ensures SpotAt(s', n) {
      assert SpotAt(s, n);
    }
  }

  lemma CallDoneKeeps(s: State, c: CallId, arg: Option<Exc>)
    requires Core(s) && c !in s.calls && s.phase.Open?
    ensures Core(DoCallDone(s, c, arg))
  {
    var s' := DoCallDone(s, c, arg);
    HeadEnds(s);
    forall d | d != c ensures CallAt(s', d) {
      assert CallAt(s, d);
    }
    assert CallAt(s', c);
    forall n ensures SpotAt(s', n) {
      assert SpotAt(s, n);
    }
  }

  /** A call moves on without touching any node. */
  predicate Moves(s: State, s': State, c: CallId) {
    && c in s.calls && c in s'.calls && s'.calls == s.calls[c := s'.calls[c]]
    && s'.mem == s.mem && s'.heap == s.heap && s'.spots == s.spots
    && s'.batches == s.batches && s'.takers == s.takers && s'.base == s.base && s'.head == s.head
    && s'.created == s.created && s'.cacheId == s.cacheId && s'.cacheSize == s.cacheSize
    && s'.given == s.given && s'.args == s.args && s'.epoch == s.epoch
    && s'.calls[c].(pc := s.calls[c].pc, drops := s.calls[c].drops) == s.calls[c]
    && !s.calls[c].pc.AddInit? && !s.calls[c].pc.AddSwap? && !s.calls[c].pc.Free? && !s.calls[c].pc.AddLink?
    && !s'.calls[c].pc.AddLink?
    && (BeforeSwap(s.calls[c].pc) || (!BeforeSwap(s'.calls[c].pc) && s'.calls[c].drops == s.calls[c].drops))
  }

  lemma MovesSpot(s: State, s': State, c: CallId, n: Node)
    requires SpotAt(s, n) && Moves(s, s', c)
    ensures SpotAt(s', n)
  {
  }

  lemma MovesPlaces(s: State, s': State, c: CallId)
    requires Core(s) && Moves(s, s', c)
    ensures Places(s')
  {
    forall n ensures SpotAt(s', n) {
      assert SpotAt(s, n);
      MovesSpot(s, s', c, n);
    }
    forall b, i | 0 <= b < |s'.batches| && 0 <= i < |s'.batches[b]|
      ensures Spotted(s'.batches, s'.spots, b, i)
    {
      assert Spotted(s.batches, s.spots, b, i);
    }
  }

  lemma MovesOther(s: State, s': State, c: CallId, d: CallId)
    requires CallAt(s, d) && d != c && Moves(s, s', c) && (s.waiting || !s'.waiting)
    requires s'.phase == s.phase || s.phase == Closing(c)
    ensures CallAt(s', d)
  {
  }

  lemma AddCheckKeeps(s: State, c: CallId)
    requires Core(s) && c in s.calls && s.calls[c].pc.AddCheck?
    ensures Core(DoAddCheck(s, c))
  {
    var s' := DoAddCheck(s, c);
    assert CallAt(s, c);
    HeadEnds(s);
    forall d | d != c ensures CallAt(s', d) {
      assert CallAt(s, d);
      MovesOther(s, s', c, d);
    }
    assert CallAt(s', c);
    MovesPlaces(s, s', c);
  }

  lemma AddBypassKeeps(s: State, c: CallId)
    requires Core(s) && c in s.calls && s.calls[c].pc.AddBypass?
    ensures Core(DoAddBypass(s, c))
  {
    var s' := DoAddBypass(s, c);
    assert CallAt(s, c);
    HeadEnds(s);
    forall d | d != c ensures CallAt(s', d) {
      assert CallAt(s, d);
      MovesOther(s, s', c, d);
    }
    assert CallAt(s', c);
    MovesPlaces(s, s', c);
  }

  lemma AddCreatePlaces(s: State, c: CallId, address: nat)
    requires Core(s) && c in s.calls && s.calls[c].pc.AddCreate? && address !in s.heap && s.created < WORD
    ensures Places(DoAddCreate(s, c, address))
  {
    var s' := DoAddCreate(s, c, address);
    assert CallAt(s, c);
    assert SpotAt(s, Cached(s.cacheId, s.created)) && SpotAt(s, Heap(address));
    forall n ensures SpotAt(s', n) {
      assert SpotAt(s, n);
    }
    forall b, i | 0 <= b < |s'.batches| && 0 <= i < |s'.batches[b]|
      ensures Spotted(s'.batches, s'.spots, b, i)
    {
      assert Spotted(s.batches, s.spots, b, i);
    }
  }

  lemma AddCreateOther(s: State, c: CallId, address: nat, d: CallId)
    requires c in s.calls && s.calls[c].pc.AddCreate? && |s.given| == s.created < WORD && d != c
    requires CallAt(s, d) && Cached(s.cacheId, s.created) !in s.spots && Heap(address) !in s.spots
    ensures CallAt(DoAddCreate(s, c, address), d)
  {
  }

  lemma AddCreateKeeps(s: State, c: CallId, address: nat)
    requires Core(s) && c in s.calls && s.calls[c].pc.AddCreate? && address !in s.heap && s.created < WORD
    ensures Core(DoAddCreate(s, c, address))
  {
    var s' := DoAddCreate(s, c, address);
    assert CallAt(s, c);
    HeadEnds(s);
    assert SpotAt(s, Cached(s.cacheId, s.created)) && SpotAt(s, Heap(address));
    forall d | d != c ensures CallAt(s', d) {
      assert CallAt(s, d);
      AddCreateOther(s, c, address, d);
    }
    assert CallAt(s', c);
    AddCreatePlaces(s, c, address);
  }

  lemma AddInitPlaces(s: State, c: CallId)
    requires Core(s) && c in s.calls && s.calls[c].pc.AddInit?
    ensures Places(DoAddInit(s, c, s.calls[c].pc.node))
  {
    var s' := DoAddInit(s, c, s.calls[c].pc.node);
    assert CallAt(s, c);
    assert SpotAt(s, s.calls[c].pc.node);
    assert SpotAt(s', s.calls[c].pc.node);
    forall n | n != s.calls[c].pc.node ensures SpotAt(s', n) {
      assert SpotAt(s, n);
    }
  }

  lemma AddInitKeeps(s: State, c: CallId)
    requires Core(s) && c in s.calls && s.calls[c].pc.AddInit?
    ensures Core(DoAddInit(s, c, s.calls[c].pc.node))
  {
    var s' := DoAddInit(s, c, s.calls[c].pc.node);
    assert CallAt(s, c);
    assert SpotAt(s, s.calls[c].pc.node);
    HeadEnds(s);
    forall d | d != c ensures CallAt(s', d) {
      assert CallAt(s, d);
      if d in s.calls && s.calls[d].pc.Drop? { Ends(s, s.calls[d].batch); }
    }
    assert CallAt(s', c);
    AddInitPlaces(s, c);
  }

  lemma AddSwapPlaces(s: State, c: CallId)
    requires Core(s) && c in s.calls && s.calls[c].pc.AddSwap?
    ensures Places(DoAddSwap(s, c, s.calls[c].pc.node))
  {
    var s' := DoAddSwap(s, c, s.calls[c].pc.node);
    assert CallAt(s, c);
    assert SpotAt(s, s.calls[c].pc.node);
    assert SpotAt(s', s.calls[c].pc.node);
    forall n | n != s.calls[c].pc.node ensures SpotAt(s', n) {
      assert SpotAt(s, n);
    }
    forall b, i | 0 <= b < |s'.batches| && 0 <= i < |s'.batches[b]|
      ensures Spotted(s'.batches, s'.spots, b, i)
    {
      assert i < |s.batches[b]| ==> Spotted(s.batches, s.spots, b, i);
    }
  }

  lemma AddSwapKeeps(s: State, c: CallId)
    requires Core(s) && c in s.calls && s.calls[c].pc.AddSwap?
    ensures Core(DoAddSwap(s, c, s.calls[c].pc.node))
  {
    var s' := DoAddSwap(s, c, s.calls[c].pc.node);
    assert CallAt(s, c);
    HeadEnds(s);
    assert SpotAt(s, s.calls[c].pc.node);
    forall d | d != c ensures CallAt(s', d) {
      assert CallAt(s, d);
    }
    assert CallAt(s', c);
    AddSwapPlaces(s, c);
  }

  lemma AddLinkOther(s: State, c: CallId, d: CallId)
    requires CallAt(s, c) && CallAt(s, d) && d != c && c in s.calls
    requires s.calls[c].pc.AddLink? && s.calls[c].pc.node in s.mem
    requires s.calls[c].pc.node in s.spots && s.spots[s.calls[c].pc.node].InBatch?
    requires s.mem[s.calls[c].pc.node].task == c
    requires d in s.calls && s.calls[d].pc.Drop? ==> s.calls[d].pc.node != s.calls[c].pc.node
    ensures CallAt(DoAddLink(s, c, s.calls[c].pc.node, s.calls[c].pc.prev), d)
  {
  }

  lemma AddLinkSpot(s: State, c: CallId, n: Node)
    requires CallAt(s, c) && SpotAt(s, n) && c in s.calls && s.calls[c].pc.AddLink? && s.calls[c].pc.node in s.mem
    ensures SpotAt(DoAddLink(s, c, s.calls[c].pc.node, s.calls[c].pc.prev), n)
  {
  }

  lemma AddLinkKeeps(s: State, c: CallId)
    requires Core(s) && c in s.calls && s.calls[c].pc.AddLink? && s.calls[c].pc.node in s.mem
    ensures Core(DoAddLink(s, c, s.calls[c].pc.node, s.calls[c].pc.prev))
  {
    var s' := DoAddLink(s, c, s.calls[c].pc.node, s.calls[c].pc.prev);
    assert CallAt(s, c);
    HeadEnds(s);
    assert SpotAt(s, s.calls[c].pc.node);
    forall d | d != c ensures CallAt(s', d) {
      assert CallAt(s, d);
      if d in s.calls && s.calls[d].pc.Drop? { Ends(s, s.calls[d].batch); }
      AddLinkOther(s, c, d);
    }
    assert CallAt(s', c);
    forall n ensures SpotAt(s', n) {
      assert SpotAt(s, n);
      AddLinkSpot(s, c, n);
    }
  }

  lemma AddRecheckKeeps(s: State, c: CallId)
    requires Core(s) && c in s.calls && s.calls[c].pc.AddRecheck?
    ensures Core(DoAddRecheck(s, c))
  {
    var s' := DoAddRecheck(s, c);
    assert CallAt(s, c);
    HeadEnds(s);
    forall d | d != c ensures CallAt(s', d) {
      assert CallAt(s, d);
      MovesOther(s, s', c, d);
    }
    assert CallAt(s', c);
    MovesPlaces(s, s', c);
  }

  lemma DoneStoreKeeps(s: State, c: CallId)
    requires Core(s) && c in s.calls && s.calls[c].pc.DoneStore?
    ensures Core(DoDoneStore(s, c, s.calls[c].pc.arg))
  {
    var s' := DoDoneStore(s, c, s.calls[c].pc.arg);
    assert CallAt(s, c);
    HeadEnds(s);
    forall d | d != c ensures CallAt(s', d) {
      assert CallAt(s, d);
      MovesOther(s, s', c, d);
    }
    assert CallAt(s', c);
    MovesPlaces(s, s', c);
  }

  lemma DoneClearKeeps(s: State, c: CallId)
    requires Core(s) && c in s.calls && s.calls[c].pc.DoneClear?
    ensures Core(DoDoneClear(s, c))
  {
    var s' := DoDoneClear(s, c);
    assert CallAt(s, c);
    HeadEnds(s);
    forall d | d != c ensures CallAt(s', d) {
      assert CallAt(s, d);
      MovesOther(s, s', c, d);
    }
    assert CallAt(s', c);
    MovesPlaces(s, s', c);
  }

  lemma SwapOther(s: State, c: CallId, d: CallId)
    requires CallAt(s, c) && CallAt(s, d) && d != c && c in s.calls && s.calls[c].pc.Swap? && Takers(s)
    ensures CallAt(DoSwap(s, c), d)
  {
  }

  lemma SwapSpot(s: State, c: CallId, n: Node)
    requires SpotAt(s, n) && c in s.calls && s.calls[c].pc.Swap? && s.batches != []
    ensures SpotAt(DoSwap(s, c), n)
  {
  }

  lemma SwapKeeps(s: State, c: CallId)
    requires Core(s) && c in s.calls && s.calls[c].pc.Swap?
    ensures Core(DoSwap(s, c))
  {
    var s' := DoSwap(s, c);
    assert CallAt(s, c);
    forall d | d != c ensures CallAt(s', d) {
      assert CallAt(s, d);
      SwapOther(s, c, d);
    }
    assert CallAt(s', c);
    forall n ensures SpotAt(s', n) {
      assert SpotAt(s, n);
      SwapSpot(s, c, n);
    }
    forall b, i | 0 <= b < |s'.batches| && 0 <= i < |s'.batches[b]|
      ensures Spotted(s'.batches, s'.spots, b, i)
    {
      assert b < |s.batches| ==> Spotted(s.batches, s.spots, b, i);
    }
  }

  lemma WalkEndKeeps(s: State, c: CallId)
    requires Core(s) && c in s.calls && s.calls[c].pc == Walk(Null)
    ensures Core(DoWalk(s, c, Null))
  {
    var s' := DoWalk(s, c, Null);
    assert CallAt(s, c);
    HeadEnds(s);
    forall d | d != c ensures CallAt(s', d) {
      assert CallAt(s, d);
      MovesOther(s, s', c, d);
    }
    assert CallAt(s', c);
    MovesPlaces(s, s', c);
  }

  lemma WalkNextSelf(s: State, c: CallId, n: Node)
    requires CallAt(s, c) && c in s.calls && s.calls[c].pc == Walk(To(n)) && n in s.mem && s.mem[n].next != To(n)
    requires Takers(s) && s.calls[c].batch < |s.batches| && s.batches[s.calls[c].batch] != []
    requires var chain := s.batches[s.calls[c].batch];
      NodeOk(s, chain[|chain| - 1], s.calls[c].batch, |chain| - 1)
    ensures CallAt(DoWalk(s, c, To(n)), c)
  {
  }

  lemma WalkNextKeeps(s: State, c: CallId, n: Node)
    requires Core(s) && c in s.calls && s.calls[c].pc == Walk(To(n)) && n in s.mem
    ensures Core(DoWalk(s, c, To(n)))
  {
    var s' := DoWalk(s, c, To(n));
    if s.mem[n].next != To(n) {
      assert CallAt(s, c);
      Ends(s, s.calls[c].batch);
      HeadEnds(s);
      forall d | d != c ensures CallAt(s', d) {
        assert CallAt(s, d);
        MovesOther(s, s', c, d);
      }
      WalkNextSelf(s, c, n);
      MovesPlaces(s, s', c);
    }
  }

  lemma DropSelf(s: State, c: CallId, n: Node, nx: Ptr)
    requires c in s.calls && s.calls[c].pc == Drop(n, nx) && CallAt(s, c)
    requires n in s.mem && s.mem[n].task in s.calls && s.calls[c].batch < |s.batches|
    requires var call := s.calls[s.mem[n].task];
      && CallAt(s, s.mem[n].task) && call.drops == [] && call.adds && call.epoch == s.epoch
      && !BeforeSwap(call.pc) && !call.pc.AddLink? && call.newHead == Some(n)
    requires s.epoch < |s.args| && s.exc == s.args[s.epoch] && n in s.spots && s.spots[n].InBatch?
    requires s.calls[c].batch >= s.base
    requires Announcing(s.calls[s.mem[n].task].pc) && s.mem[n].task != c ==>
      s.calls[s.mem[n].task].batch != s.calls[c].batch
    ensures CallAt(DoDrop(s, c, n, nx), c) && CallAt(DoDrop(s, c, n, nx), s.mem[n].task)
  {
  }

  lemma DropOther(s: State, c: CallId, n: Node, nx: Ptr, d: CallId)
    requires c in s.calls && s.calls[c].pc == Drop(n, nx) && CallAt(s, c)
    requires n in s.mem && s.mem[n].task in s.calls && s.calls[c].batch < |s.batches|
    requires n in s.spots && s.spots[n].InBatch? && CallAt(s, d) && d != c && d != s.mem[n].task
    ensures CallAt(DoDrop(s, c, n, nx), d)
  {
  }

  lemma DropCalls(s: State, c: CallId, n: Node, nx: Ptr)
    requires Core(s) && c in s.calls && s.calls[c].pc == Drop(n, nx)
    requires n in s.mem && s.mem[n].task in s.calls && s.calls[c].batch < |s.batches|
    ensures Calls(DoDrop(s, c, n, nx))
  {
    assert CallAt(s, c) && CallAt(s, s.mem[n].task);
    Ends(s, s.calls[c].batch);
    DropSelf(s, c, n, nx);
    forall d | d != c && d != s.mem[n].task ensures CallAt(DoDrop(s, c, n, nx), d) {
      assert CallAt(s, d);
      DropOther(s, c, n, nx, d);
    }
  }

  lemma DropPlaces(s: State, c: CallId, n: Node, nx: Ptr)
    requires Core(s) && c in s.calls && s.calls[c].pc == Drop(n, nx)
    requires n in s.mem && s.mem[n].task in s.calls && s.calls[c].batch < |s.batches|
    ensures Places(DoDrop(s, c, n, nx))
  {
    var s' := DoDrop(s, c, n, nx);
    assert CallAt(s, c);
    Ends(s, s.calls[c].batch);
    forall m ensures SpotAt(s', m) {
      assert SpotAt(s, m);
    }
    forall b, i | 0 <= b < |s'.batches| && 0 <= i < |s'.batches[b]|
      ensures Spotted(s'.batches, s'.spots, b, i)
    {
      assert Spotted(s.batches, s.spots, b, i);
    }
  }

  lemma DropKeeps(s: State, c: CallId, n: Node, nx: Ptr)
    requires Core(s) && c in s.calls && s.calls[c].pc == Drop(n, nx)
    requires n in s.mem && s.mem[n].task in s.calls && s.calls[c].batch < |s.batches|
    ensures Core(DoDrop(s, c, n, nx))
  {
    assert CallAt(s, c);
    Ends(s, s.calls[c].batch);
    HeadEnds(s);
    DropCalls(s, c, n, nx);
    DropPlaces(s, c, n, nx);
  }

  lemma FreeOther(s: State, c: CallId, d: CallId)
    requires CallAt(s, c) && CallAt(s, d) && d != c && c in s.calls && s.calls[c].pc.Free?
    ensures CallAt(DoFree(s, c, s.calls[c].pc.node, s.calls[c].pc.next), d)
  {
  }

  lemma FreeSpot(s: State, c: CallId, n: Node)
    requires CallAt(s, c) && SpotAt(s, n) && c in s.calls && s.calls[c].pc.Free?
    ensures SpotAt(DoFree(s, c, s.calls[c].pc.node, s.calls[c].pc.next), n)
  {
  }

  lemma FreePlaces(s: State, c: CallId)
    requires Core(s) && c in s.calls && s.calls[c].pc.Free?
    ensures Places(DoFree(s, c, s.calls[c].pc.node, s.calls[c].pc.next))
  {
    var s' := DoFree(s, c, s.calls[c].pc.node, s.calls[c].pc.next);
    assert CallAt(s, c);
    assert SpotAt(s, s.calls[c].pc.node);
    forall n ensures SpotAt(s', n) {
      assert SpotAt(s, n);
      FreeSpot(s, c, n);
    }
    forall b, i | 0 <= b < |s'.batches| && 0 <= i < |s'.batches[b]|
      ensures Spotted(s'.batches, s'.spots, b, i)
    {
      assert Spotted(s.batches, s.spots, b, i);
    }
  }

  lemma FreeKeeps(s: State, c: CallId)
    requires Core(s) && c in s.calls && s.calls[c].pc.Free?
    ensures Core(DoFree(s, c, s.calls[c].pc.node, s.calls[c].pc.next))
  {
    var s' := DoFree(s, c, s.calls[c].pc.node, s.calls[c].pc.next);
    assert CallAt(s, c);
    HeadEnds(s);
    assert SpotAt(s, s.calls[c].pc.node);
    forall d | d != c ensures CallAt(s', d) {
      assert CallAt(s, d);
      FreeOther(s, c, d);
    }
    assert CallAt(s', c);
    FreePlaces(s, c);
  }

  /** In a settled state every unit is let go, all chains are announced, and only announcers of
      nodes on the heap still hold any. */
  lemma NothingLeft(s: State)
    requires Core(s) && Settled(s)
    ensures forall b | 0 <= b < |s.batches| :: s.batches[b] == []
    ensures forall n {:trigger n in s.spots} | n in s.spots :: s.spots[n].InHand?
    ensures forall c | c in s.calls && s.calls[c].adds :: s.calls[c].drops != []
    ensures !s.phase.Closing?
  {
    forall b | 0 <= b < |s.batches| ensures s.batches[b] == [] {
      if b < |s.takers| {
        assert CallAt(s, s.takers[b]);
      }
    }
    forall n {:trigger n in s.spots} | n in s.spots ensures s.spots[n].InHand? {
      assert SpotAt(s, n);
    }
    forall c | c in s.calls && s.calls[c].adds ensures s.calls[c].drops != [] {
      assert CallAt(s, c);
    }
  }

  lemma ResetKeeps(s: State)
    requires Core(s) && Settled(s)
    ensures Core(DoReset(s))
  {
    var s' := DoReset(s);
    NothingLeft(s);
    forall d ensures CallAt(s', d) {
      assert CallAt(s, d);
      if d in s.calls && s.calls[d].pc.Free? { assert SpotAt(s, s.calls[d].pc.node); }
    }
    forall n ensures SpotAt(s', n) {
      assert SpotAt(s, n);
    }
  }

  /** With the calls returned and the head null no node is in use, and every unit is let go. */
  lemma NoneLeft(s: State)
    requires Core(s) && AllReturned(s) && s.head == Null
    ensures s.spots == map[] && s.heap == {}
    ensures forall c | c in s.calls && s.calls[c].adds :: s.calls[c].drops != []
  {
    NothingLeft(s);
    forall n ensures n !in s.spots {
      assert SpotAt(s, n);
    }
  }
}
