// The event loop: concurrent streams that draw event numbers from one counter, each drawing
// again when its event is done. The processing of an event is Scheduler.dfy's business: here
// it is one step, its all-paths-done task calling back.

module EventLoops {
  import opened Basics

  datatype Stream =
    | NotStarted
    | Processing(event: nat)
    | Drawing                  // the callback is about to call handleNextEventAsync
    | Over(atEnd: bool)        // atEnd: the source had no more events; else an exception

  /** `seen` is the source's counter, `exc` the wait task's exception, `started` how many
      streams processAll has started and `joined` whether it is past its barrier. History:
      the stream that got each event, and the events whose paths are all done. */
  datatype State = State(
    seen: nat,
    streams: seq<Stream>,
    exc: Option<Exc>,
    started: nat,
    joined: bool,
    owner: map<nat, nat>,
    finished: set<nat>)

  datatype Action =
    | Start                                          // handleNextEventAsync from processAll
    | Draw(stream: nat)                              // handleNextEventAsync from the callback
    | Finish(stream: nat, exc: Option<Exc>)          // the callback
    | Join

  /** One schedule is there from the beginning, whatever number is asked for. */
  function Streams(requested: nat): nat {
    if requested == 0 then 1 else requested
  }

  function Init(requested: nat): State {
    State(0, seq(Streams(requested), _ => NotStarted), None, 0, false, map[], {})
  }

  /** The streams are started from 1 on, the first one last. */
  function Order(j: nat, streams: nat): (k: nat)
    requires j < streams
    ensures k < streams
  {
    if j + 1 < streams then j + 1 else 0
  }

  predicate Enabled(s: State, a: Action) {
    match a
    case Start => s.started < |s.streams| && !s.joined
    case Draw(k) => k < |s.streams| && s.streams[k].Drawing?
    case Finish(k, _) => k < |s.streams| && s.streams[k].Processing?
    case Join => s.started == |s.streams| && !s.joined && forall k | 0 <= k < |s.streams| :: s.streams[k].Over?
  }

  /** setEventInfo: takes a number, and says whether there is an event of that number. */
  function DoDraw(n: nat, s: State, k: nat): State
    requires k < |s.streams|
  {
    var i := s.seen;
    if n >= i + 1 then s.(seen := i + 1, streams := s.streams[k := Processing(i)], owner := s.owner[i := k])
    else s.(seen := i + 1, streams := s.streams[k := Over(true)])
  }

  function DoStart(n: nat, s: State): State
    requires s.started < |s.streams|
  {
    DoDraw(n, s, Order(s.started, |s.streams|)).(started := s.started + 1)
  }

  function DoFinish(s: State, k: nat, exc: Option<Exc>): State
    requires k < |s.streams| && s.streams[k].Processing?
  {
    s.(streams := s.streams[k := if exc == None then Drawing else Over(false)],
       exc := FirstOf(s.exc, exc),
       finished := s.finished + {s.streams[k].event})
  }

  function Apply(n: nat, s: State, a: Action): State
    requires Enabled(s, a)
  {
    match a
    case Start => DoStart(n, s)
    case Draw(k) => DoDraw(n, s, k)
    case Finish(k, exc) => DoFinish(s, k, exc)
    case Join => s.(joined := true)
  }

  function Step(n: nat, s: State, a: Action): State {
    if Enabled(s, a) then Apply(n, s, a) else s
  }

  function Run(n: nat, s: State, acts: seq<Action>): State
    decreases |acts|
  {
    if acts == [] then s else Run(n, Step(n, s, acts[0]), acts[1..])
  }

  // ---------- the invariant ----------

  /** The streams that have seen the end of the source, and those stopped by an exception. */
  function Ended(s: State): set<nat> {
    set k: nat | k < |s.streams| && s.streams[k] == Over(true)
  }

  function Failed(s: State): set<nat> {
    set k: nat | k < |s.streams| && s.streams[k] == Over(false)
  }

  /** A stream is processing exactly the event that it drew and that is not done. */
  ghost predicate EventAt(s: State, i: nat) {
    && (i in s.owner ==> s.owner[i] < |s.streams|)
    && (i in s.owner && i !in s.finished ==> s.streams[s.owner[i]] == Processing(i))
    && (i in s.finished ==> i in s.owner)
  }

  ghost predicate StreamAt(s: State, k: nat) {
    k < |s.streams| && s.streams[k].Processing? ==>
      var i := s.streams[k].event; i in s.owner && s.owner[i] == k && i !in s.finished
  }

  /** The streams not started are the last ones in the order of starting. */
  ghost predicate StartAt(s: State, j: nat) {
    j < |s.streams| ==> (s.streams[Order(j, |s.streams|)].NotStarted? <==> j >= s.started)
  }

  ghost predicate Local(s: State) {
    && (forall i {:trigger EventAt(s, i)} :: EventAt(s, i))
    && (forall k {:trigger StreamAt(s, k)} :: StreamAt(s, k))
    && (forall j {:trigger StartAt(s, j)} :: StartAt(s, j))
  }

  /** The numbers below n that were given out, and one draw past the end by each stream that
      has seen it. */
  ghost predicate Counted(n: nat, s: State) {
    && s.owner.Keys == UpTo(Given(n, s))
    && s.seen == Given(n, s) + |Ended(s)|
    && (Ended(s) != {} ==> s.seen > n)
  }

  /** How many events were given out. */
  function Given(n: nat, s: State): nat {
    if s.seen <= n then s.seen else n
  }

  function UpTo(n: nat): (below: set<nat>)
    ensures |below| == n && forall i: nat :: i in below <==> i < n
  {
    if n == 0 then {} else UpTo(n - 1) + {n - 1}
  }

  lemma UpToNext(n: nat)
    ensures UpTo(n + 1) == UpTo(n) + {n}
  {
  }

  ghost predicate Inv(n: nat, s: State) {
    && Local(s) && Counted(n, s)
    && s.started <= |s.streams|
    && (s.exc.Some? <==> Failed(s) != {})
    && (s.joined ==> s.started == |s.streams| && forall k | 0 <= k < |s.streams| :: s.streams[k].Over?)
  }

  lemma InitInv(n: nat, requested: nat)
    ensures Inv(n, Init(requested))
  {
    assert Ended(Init(requested)) == {} && Failed(Init(requested)) == {};
  }

  /** Which streams have stopped changes only with k. */
  lemma StreamChanges(s: State, s': State, k: nat)
    requires k < |s.streams| == |s'.streams| && s'.streams == s.streams[k := s'.streams[k]] && !s.streams[k].Over?
    ensures Ended(s') == if s'.streams[k] == Over(true) then Ended(s) + {k} else Ended(s)
    ensures Failed(s') == if s'.streams[k] == Over(false) then Failed(s) + {k} else Failed(s)
    ensures k !in Ended(s) && k !in Failed(s)
  {
  }

  lemma DrawnCounts(n: nat, s: State, k: nat)
    requires Counted(n, s) && k < |s.streams| && !s.streams[k].Over? && s.seen < n
    ensures Counted(n, DoDraw(n, s, k)) && Failed(DoDraw(n, s, k)) == Failed(s)
  {
    var s' := DoDraw(n, s, k);
    assert Ended(s) == {};
    StreamChanges(s, s', k);
    UpToNext(s.seen);
    assert s'.owner.Keys == s.owner.Keys + {s.seen};
  }

  lemma EndCounts(n: nat, s: State, k: nat)
    requires Counted(n, s) && k < |s.streams| && !s.streams[k].Over? && s.seen >= n
    ensures Counted(n, DoDraw(n, s, k)) && Failed(DoDraw(n, s, k)) == Failed(s)
  {
    var s' := DoDraw(n, s, k);
    StreamChanges(s, s', k);
    assert s'.owner == s.owner;
    assert Given(n, s) == n && Given(n, s') == n;
  }

  lemma DrawCounts(n: nat, s: State, k: nat)
    requires Counted(n, s) && k < |s.streams| && !s.streams[k].Over?
    ensures Counted(n, DoDraw(n, s, k)) && Failed(DoDraw(n, s, k)) == Failed(s)
  {
    if s.seen < n {
      DrawnCounts(n, s, k);
    } else {
      EndCounts(n, s, k);
    }
  }

  lemma DrawIsLocal(n: nat, s: State, k: nat)
    requires Local(s) && Counted(n, s) && k < |s.streams| && s.streams[k].Drawing?
    ensures Local(DoDraw(n, s, k))
  {
    var s' := DoDraw(n, s, k);
    assert EventAt(s, s.seen);
    forall i: nat ensures EventAt(s', i) {
      assert EventAt(s, i);
    }
    forall l: nat ensures StreamAt(s', l) {
      assert StreamAt(s, l);
    }
    forall j: nat ensures StartAt(s', j) {
      assert StartAt(s, j);
    }
  }

  lemma StartIsLocal(n: nat, s: State)
    requires Local(s) && Counted(n, s) && s.started < |s.streams|
    ensures Local(DoStart(n, s))
  {
    var s' := DoStart(n, s);
    assert StartAt(s, s.started) && EventAt(s, s.seen);
    forall i: nat ensures EventAt(s', i) {
      assert EventAt(s, i);
    }
    forall l: nat ensures StreamAt(s', l) {
      assert StreamAt(s, l);
    }
    forall j: nat ensures StartAt(s', j) {
      assert StartAt(s, j);
    }
  }

  lemma DrawKeeps(n: nat, s: State, k: nat)
    requires Inv(n, s) && k < |s.streams| && s.streams[k].Drawing?
    ensures Inv(n, DoDraw(n, s, k))
  {
    DrawCounts(n, s, k);
    DrawIsLocal(n, s, k);
  }

  lemma StartKeeps(n: nat, s: State)
    requires Inv(n, s) && Enabled(s, Start)
    ensures Inv(n, DoStart(n, s))
  {
    var k := Order(s.started, |s.streams|);
    assert StartAt(s, s.started);
    DrawCounts(n, s, k);
    StartIsLocal(n, s);
    assert Ended(DoStart(n, s)) == Ended(DoDraw(n, s, k)) && Failed(DoStart(n, s)) == Failed(DoDraw(n, s, k));
  }

  lemma FinishIsLocal(s: State, k: nat, exc: Option<Exc>)
    requires Local(s) && k < |s.streams| && s.streams[k].Processing?
    ensures Local(DoFinish(s, k, exc))
  {
    var s' := DoFinish(s, k, exc);
    assert StreamAt(s, k);
    forall i: nat ensures EventAt(s', i) {
      assert EventAt(s, i);
    }
    forall l: nat ensures StreamAt(s', l) {
      assert StreamAt(s, l);
    }
    forall j: nat ensures StartAt(s', j) {
      assert StartAt(s, j);
    }
  }

  lemma FinishKeeps(n: nat, s: State, k: nat, exc: Option<Exc>)
    requires Inv(n, s) && Enabled(s, Finish(k, exc))
    ensures Inv(n, DoFinish(s, k, exc))
  {
    FinishIsLocal(s, k, exc);
    StreamChanges(s, DoFinish(s, k, exc), k);
  }

  lemma StepKeepsInv(n: nat, s: State, a: Action)
    requires Inv(n, s)
    ensures Inv(n, Step(n, s, a)) && |Step(n, s, a).streams| == |s.streams|
  {
    if Enabled(s, a) {
      match a
      case Start => StartKeeps(n, s);
      case Draw(k) => DrawKeeps(n, s, k);
      case Finish(k, exc) => FinishKeeps(n, s, k, exc);
      case Join =>
        var s' := Apply(n, s, a);
        assert Ended(s') == Ended(s) && Failed(s') == Failed(s);
        forall i: nat ensures EventAt(s', i) {
          assert EventAt(s, i);
        }
        forall l: nat ensures StreamAt(s', l) {
          assert StreamAt(s, l);
        }
        forall j: nat ensures StartAt(s', j) {
          assert StartAt(s, j);
        }
    }
  }

  lemma {:induction false} RunKeepsInv(n: nat, s: State, acts: seq<Action>)
    requires Inv(n, s)
    ensures Inv(n, Run(n, s, acts)) && |Run(n, s, acts).streams| == |s.streams|
    decreases |acts|
  {
    if acts != [] {
      var t := Step(n, s, acts[0]);
      StepKeepsInv(n, s, acts[0]);
      RunKeepsInv(n, t, acts[1..]);
      assert Run(n, s, acts) == Run(n, t, acts[1..]);
    }
  }

  lemma Reached(n: nat, requested: nat, acts: seq<Action>)
    ensures Inv(n, Run(n, Init(requested), acts))
    ensures |Run(n, Init(requested), acts).streams| == Streams(requested)
  {
    InitInv(n, requested);
    RunKeepsInv(n, Init(requested), acts);
  }

  // ---------- what it gives ----------

  /** At every moment: the numbers below n are given out in order without gaps; no two streams
      process one event; and a stream that draws has finished everything that it was given. */
  lemma OneStreamPerEvent(n: nat, requested: nat, acts: seq<Action>)
    ensures var s := Run(n, Init(requested), acts);
      && s.owner.Keys == UpTo(Given(n, s))
      && (forall k, l | 0 <= k < |s.streams| && 0 <= l < |s.streams| ::
            s.streams[k].Processing? && s.streams[k] == s.streams[l] ==> k == l)
      && (forall k: nat | k < |s.streams| && s.streams[k].Processing? ::
            s.streams[k].event < n && s.streams[k].event !in s.finished)
      && (forall k: nat, i: nat | Enabled(s, Draw(k)) && i in s.owner && s.owner[i] == k :: i in s.finished)
  {
    Reached(n, requested, acts);
    var s := Run(n, Init(requested), acts);
    forall k: nat | k < |s.streams| && s.streams[k].Processing?
      ensures s.streams[k].event in s.owner && s.owner[s.streams[k].event] == k
      ensures s.streams[k].event !in s.finished
    {
      assert StreamAt(s, k);
    }
    forall k: nat, i: nat | Enabled(s, Draw(k)) && i in s.owner && s.owner[i] == k ensures i in s.finished {
      assert EventAt(s, i);
    }
  }

  // ---------- how often ----------

  function One(b: bool): int {
    if b then 1 else 0
  }

  /** How often a run gives out the number i, and how often the processing of event i ends. */
  function Draws(n: nat, s: State, acts: seq<Action>, i: nat): int
    decreases |acts|
  {
    if acts == [] then 0 else One(GivesOut(s, acts[0], i)) + Draws(n, Step(n, s, acts[0]), acts[1..], i)
  }

  function Finishes(n: nat, s: State, acts: seq<Action>, i: nat): int
    decreases |acts|
  {
    if acts == [] then 0 else One(Ends(s, acts[0], i)) + Finishes(n, Step(n, s, acts[0]), acts[1..], i)
  }

  predicate GivesOut(s: State, a: Action, i: nat) {
    Enabled(s, a) && (a.Start? || a.Draw?) && s.seen == i
  }

  predicate Ends(s: State, a: Action, i: nat) {
    Enabled(s, a) && a.Finish? && s.streams[a.stream] == Processing(i)
  }

  lemma {:induction false} DrawsAre(n: nat, s: State, acts: seq<Action>, i: nat)
    ensures Draws(n, s, acts, i) == One(i < Run(n, s, acts).seen) - One(i < s.seen)
    decreases |acts|
  {
    if acts != [] {
      DrawsAre(n, Step(n, s, acts[0]), acts[1..], i);
    }
  }

  lemma {:induction false} FinishesAre(n: nat, s: State, acts: seq<Action>, i: nat)
    requires Inv(n, s)
    ensures Finishes(n, s, acts, i) == One(i in Run(n, s, acts).finished) - One(i in s.finished)
    decreases |acts|
  {
    if acts != [] {
      StepKeepsInv(n, s, acts[0]);
      FinishesAre(n, Step(n, s, acts[0]), acts[1..], i);
      if Enabled(s, acts[0]) && acts[0].Finish? {
        assert StreamAt(s, acts[0].stream);
      }
    }
  }

  lemma StoppedAre(s: State)
    requires forall k | 0 <= k < |s.streams| :: s.streams[k].Over?
    ensures |Ended(s)| + |Failed(s)| == |s.streams|
  {
    assert Ended(s) !! Failed(s);
    assert Ended(s) + Failed(s) == UpTo(|s.streams|);
  }

  /** When processAll is past its barrier: every event drawn was drawn once and is done, once,
      and the counter stands at the events drawn plus one for each stream that saw the end. It
      rethrows exactly when some stream was stopped by an exception. If none was, every event 0
      to n - 1 was drawn and done once and the counter stands at n plus the number of streams. */
  lemma LoopEnds(n: nat, requested: nat, acts: seq<Action>)
    requires Run(n, Init(requested), acts).joined
    ensures var s := Run(n, Init(requested), acts);
      && s.finished == UpTo(Given(n, s))
      && (forall i: nat :: Finishes(n, Init(requested), acts, i) == One(i < Given(n, s)))
      && (forall i: nat :: Draws(n, Init(requested), acts, i) == One(i < s.seen))
      && s.seen == Given(n, s) + |Ended(s)|
      && |Ended(s)| + |Failed(s)| == |s.streams| == (if requested == 0 then 1 else requested)
      && (Ended(s) != {} ==> Given(n, s) == n)
      && (s.exc.Some? <==> Failed(s) != {})
      && (Failed(s) == {} ==> Given(n, s) == n && s.seen == n + |s.streams|)
  {
    Reached(n, requested, acts);
    InitInv(n, requested);
    var s := Run(n, Init(requested), acts);
    StoppedAre(s);
    forall i: nat | i in s.owner ensures i in s.finished {
      assert EventAt(s, i);
    }
    forall i: nat | i in s.finished ensures i in s.owner {
      assert EventAt(s, i);
    }
    assert s.finished == s.owner.Keys;
    forall i: nat ensures Finishes(n, Init(requested), acts, i) == One(i < Given(n, s)) {
      FinishesAre(n, Init(requested), acts, i);
    }
    forall i: nat ensures Draws(n, Init(requested), acts, i) == One(i < s.seen) {
      DrawsAre(n, Init(requested), acts, i);
    }
    if Failed(s) == {} {
      assert Ended(s) != {};
    }
  }

  /** The first exception that a run's callbacks hand on. */
  function FirstHandedOn(n: nat, s: State, acts: seq<Action>): Option<Exc>
    decreases |acts|
  {
    if acts == [] then None
    else if acts[0].Finish? && acts[0].exc.Some? && Enabled(s, acts[0]) then acts[0].exc
    else FirstHandedOn(n, Step(n, s, acts[0]), acts[1..])
  }

  /** The exception that processAll rethrows is the first that a callback was given; it rethrows
      none if none was given one. */
  lemma {:induction false} RethrowsFirst(n: nat, s: State, acts: seq<Action>)
    ensures Run(n, s, acts).exc == if s.exc.Some? then s.exc else FirstHandedOn(n, s, acts)
    decreases |acts|
  {
    if acts != [] {
      RethrowsFirst(n, Step(n, s, acts[0]), acts[1..]);
    }
  }

  // ---------- the loop comes to its end ----------

  function Weight(x: Stream): nat {
    match x
    case NotStarted => 1
    case Processing(_) => 2
    case Drawing => 1
    case Over(_) => 0
  }

  function Weights(xs: seq<Stream>): seq<nat> {
    seq(|xs|, k requires 0 <= k < |xs| => Weight(xs[k]))
  }

  function Measure(n: nat, s: State): nat {
    3 * (if s.seen <= n then n - s.seen else 0) + Sum(Weights(s.streams)) + (if s.joined then 0 else 1)
  }

  lemma WeightChanges(xs: seq<Stream>, k: nat, x: Stream)
    requires k < |xs|
    ensures Sum(Weights(xs[k := x])) == Sum(Weights(xs)) - Weight(xs[k]) + Weight(x)
  {
    SumUpdate(Weights(xs), k, Weight(x));
    assert Weights(xs[k := x]) == Weights(xs)[k := Weight(x)];
  }

  /** Every step brings the end nearer, however the streams' steps come. */
  lemma StepFalls(n: nat, s: State, a: Action)
    requires Inv(n, s) && Enabled(s, a)
    ensures Measure(n, Apply(n, s, a)) < Measure(n, s)
  {
    match a
    case Start =>
      assert StartAt(s, s.started);
      var k := Order(s.started, |s.streams|);
      WeightChanges(s.streams, k, DoDraw(n, s, k).streams[k]);
      assert DoDraw(n, s, k).streams == s.streams[k := DoDraw(n, s, k).streams[k]];
    case Draw(k) =>
      WeightChanges(s.streams, k, DoDraw(n, s, k).streams[k]);
      assert DoDraw(n, s, k).streams == s.streams[k := DoDraw(n, s, k).streams[k]];
    case Finish(k, exc) =>
      WeightChanges(s.streams, k, DoFinish(s, k, exc).streams[k]);
    case Join =>
  }

  /** And until processAll is past its barrier there is a step to take. */
  lemma GoesOn(n: nat, s: State)
    requires Inv(n, s)
    ensures s.joined <==> forall a :: !Enabled(s, a)
  {
    if !s.joined {
      if s.started < |s.streams| {
        assert Enabled(s, Start);
      } else if k: nat :| k < |s.streams| && !s.streams[k].Over? {
        assert StartAt(s, if k == 0 then |s.streams| - 1 else k - 1);
        assert Enabled(s, if s.streams[k].Drawing? then Draw(k) else Finish(k, None));
      } else {
        assert Enabled(s, Join);
      }
    }
  }
}
