// The event loop as an object updated in place, with the source's counter. Each method is a
// step of EventLoop.dfy and keeps its invariant.

module EventLoopObjects {
  import opened Basics
  import opened EventLoops

  class SimpleSource {
    const nEvents: nat
    var seenEvents: nat

    constructor (n: nat)
      ensures nEvents == n && seenEvents == 0
    {
      nEvents := n;
      seenEvents := 0;
    }

    /** The number for the event, and whether there is such an event. */
    method SetEventInfo() returns (index: nat, more: bool)
      modifies this
      ensures index == old(seenEvents) && seenEvents == index + 1
      ensures more <==> index < nEvents
    {
      index := seenEvents;
      seenEvents := seenEvents + 1;
      more := nEvents >= index + 1;
    }
  }

  class EventProcessor {
    const source: SimpleSource
    var streams: seq<Stream>
    var exc: Option<Exc>
    var started: nat
    var joined: bool
    var owner: map<nat, nat>
    var finished: set<nat>

    ghost function View(): State
      reads this, source
    {
      State(source.seenEvents, streams, exc, started, joined, owner, finished)
    }

    /** What the results of EventLoop.dfy rest on. */
    ghost predicate Valid()
      reads this, source
    {
      Inv(source.nEvents, View())
    }

    constructor (nEvents: nat, requested: nat)
      ensures Valid() && fresh(source) && source.nEvents == nEvents && View() == Init(requested)
      ensures source.seenEvents == 0 && exc == None && |streams| == (if requested == 0 then 1 else requested)
    {
      var s := new SimpleSource(nEvents);
      source := s;
      streams := seq(Streams(requested), _ => NotStarted);
      exc, started, joined, owner, finished := None, 0, false, map[], {};
      new;
      InitInv(nEvents, requested);
    }

    /** The part of handleNextEventAsync that both its callers share: without a further event the
        stream drops its holder. */
    method TakeNext(k: nat)
      requires k < |streams|
      modifies this, source
      ensures View() == DoDraw(source.nEvents, old(View()), k)
      ensures var i := old(source.seenEvents);
        && source.seenEvents == i + 1
        && streams == old(streams)[k := if i < source.nEvents then Processing(i) else Over(true)]
    {
      var i, more := source.SetEventInfo();
      if more {
        owner := owner[i := k];
        streams := streams[k := Processing(i)];
      } else {
        streams := streams[k := Over(true)];
      }
    }

    /** One turn of the loop of processAll, or the call after it. */
    method Start()
      requires Valid() && started < |streams| && !joined
      modifies this, source
      ensures Valid() && View() == DoStart(source.nEvents, old(View()))
      ensures var k, i := if old(started) + 1 < |streams| then old(started) + 1 else 0, old(source.seenEvents);
        && |streams| == |old(streams)| && started == old(started) + 1 && source.seenEvents == i + 1
        && streams == old(streams)[k := if i < source.nEvents then Processing(i) else Over(true)]
    {
      ghost var next := DoStart(source.nEvents, View());
      StartKeeps(source.nEvents, View());
      TakeNext(Order(started, |streams|));
      started := started + 1;
      assert View() == next;
    }

    /** The callback after an event without an exception calls handleNextEventAsync. */
    method HandleNextEventAsync(k: nat)
      requires Valid() && k < |streams| && streams[k].Drawing?
      modifies this, source
      ensures Valid() && View() == DoDraw(source.nEvents, old(View()), k)
    {
      DrawKeeps(source.nEvents, View(), k);
      TakeNext(k);
    }

    /** The task that handleNextEventAsync gave to processAsync. */
    method Callback(k: nat, exception: Option<Exc>)
      requires Valid() && k < |streams| && streams[k].Processing?
      modifies this
      ensures Valid() && View() == DoFinish(old(View()), k, exception)
      ensures streams == old(streams)[k := if exception == None then Drawing else Over(false)]
      ensures exc == if old(exc).Some? then old(exc) else exception
    {
      FinishKeeps(source.nEvents, View(), k, exception);
      finished := finished + {streams[k].event};
      if exception.Some? {
        exc := FirstOf(exc, exception);
        streams := streams[k := Over(false)];
      } else {
        streams := streams[k := Drawing];
      }
    }

    /** The barrier: all streams are over. */
    method Join()
      requires Valid() && started == |streams| && !joined
      requires forall k | 0 <= k < |streams| :: streams[k].Over?
      modifies this
      ensures Valid() && View() == old(View()).(joined := true)
      ensures exc == old(exc) && (exc.Some? <==> exists k :: 0 <= k < |streams| && streams[k] == Over(false))
    {
      StepKeepsInv(source.nEvents, View(), Action.Join);
      assert exc.Some? ==> exists k: nat :: k in Failed(View());
      assert forall k: nat | k < |streams| && streams[k] == Over(false) :: k in Failed(View());
      joined := true;
    }
  }
}
