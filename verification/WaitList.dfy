// The wait list as its users see it: joins, the closing, and what the threads that were in it
// have still to do. WaitingTaskList.dfy shows that the lock-free list refines it, and
// Scheduler.dfy is written over it.

module WaitLists {
  import opened Basics

  /** `waiting` have joined and were not let go, and `head` are those of them that nobody has
      taken from the head yet. `rechecks` are adders that found the head empty and have still
      to look whether the list was closed, in which case they take what is there. `taking`:
      the closer has closed the list and not yet taken what is there. `joined` since the list
      was opened, each in a node, of which `cache` are preallocated. `reading`: the closer has
      let somebody go and has still to look at its preallocated node; `deleted`: that node is
      gone. */
  datatype WaitList<T(==)> = WaitList(
    closed: bool,
    exc: Option<Exc>,
    waiting: set<T>,
    head: set<T>,
    rechecks: set<T>,
    taking: bool,
    joined: set<T>,
    cache: nat,
    reading: bool,
    deleted: bool)

  /** What a step of the list does to the outside: nothing, the list closed with an exception or
      none, one waiter let go, or the list opened for the next event. */
  datatype Effect<T> = Silent | Closed(exc: Option<Exc>) | LetGo(waiter: T, exc: Option<Exc>) | Reopened

  function Empty<T>(cache: nat): WaitList<T> {
    WaitList(false, None, {}, {}, {}, false, {}, cache, false, false)
  }

  /** A waiter that joins the list. It may still do so on a list that was closed
      after its adder looked; some announcer then lets it go. */
  function Join<T>(l: WaitList<T>, w: T): WaitList<T> {
    l.(waiting := l.waiting + {w}, head := l.head + {w}, joined := l.joined + {w},
       rechecks := if l.head == {} then l.rechecks + {w} else l.rechecks)
  }

  /** The second look of an adder, which announces if the list was closed. */
  function Recheck<T>(l: WaitList<T>, w: T): WaitList<T> {
    l.(rechecks := l.rechecks - {w}, head := if l.closed then {} else l.head)
  }

  function Close<T>(l: WaitList<T>, exc: Option<Exc>): WaitList<T> {
    l.(closed := true, exc := exc, taking := true)
  }

  /** The closer takes what is there. */
  function Take<T>(l: WaitList<T>): WaitList<T> {
    l.(taking := false, head := {})
  }

  /** Of those taken, somebody lets one go; `reader` if it is the closer, and the node not from
      the heap. */
  function Leave<T>(l: WaitList<T>, w: T, reader: bool): WaitList<T> {
    l.(waiting := l.waiting - {w}, reading := l.reading || reader)
  }

  function Look<T>(l: WaitList<T>): WaitList<T> {
    l.(reading := false)
  }

  /** More nodes were in use than are preallocated, which reset changes. */
  predicate Grows<T>(l: WaitList<T>) {
    |l.joined| > l.cache
  }

  function Reset<T>(l: WaitList<T>): WaitList<T> {
    l.(closed := false, exc := None, joined := {},
       cache := if Grows(l) then |l.joined| else l.cache,
       deleted := l.deleted || (l.reading && Grows(l)))
  }

  /** Nobody waits, the closer is past the head, and will not look at what reset deletes. */
  predicate Settled<T>(l: WaitList<T>) {
    l.waiting == {} && l.head == {} && !l.taking && (l.reading ==> !Grows(l))
  }

  /** The list: joins and second looks at any time, closes once, lets a waiter go only when
      closed and only with the exception it was closed with, and opens again when settled. */
  ghost predicate Next<T(!new)>(l: WaitList<T>, l': WaitList<T>, e: Effect<T>) {
    match e
    case Silent =>
      || l' == l
      || (exists w :: w !in l.joined && l' == Join(l, w))
      || (exists w :: w in l.rechecks && l' == Recheck(l, w))
      || (l.taking && l' == Take(l))
      || (l.reading && l' == Look(l))
    case Closed(x) => !l.closed && l' == Close(l, x)
    case LetGo(w, x) =>
      && l.closed && x == l.exc
      && (if w in l.waiting
          then w !in l.head && exists reader: bool :: (reader ==> !l.taking) && l' == Leave(l, w, reader)
          else l' == l)
    case Reopened => Settled(l) && l' == Reset(l)
  }

  /** What every such list keeps. */
  predicate Sound<T>(l: WaitList<T>) {
    && l.head <= l.waiting
    && (if l.closed then !l.taking && l.head != {} ==> l.rechecks != {}
        else l.head == l.waiting && !l.taking)
    && !l.deleted
  }

  lemma NextKeepsSound<T(!new)>(l: WaitList<T>, l': WaitList<T>, e: Effect<T>)
    requires Sound(l) && Next(l, l', e) && l.waiting <= l.joined
    ensures Sound(l')
  {
  }

  // ---------- whatever is done with a list ----------

  datatype Move<T> =
    | Joining(waiter: T)
    | Rechecking(waiter: T)
    | Closing(exc: Option<Exc>)
    | Taking
    | Leaving(waiter: T, reader: bool)
    | Looking

  predicate Can<T(==)>(l: WaitList<T>, m: Move<T>) {
    match m
    case Joining(w) => w !in l.joined
    case Rechecking(w) => w in l.rechecks
    case Closing(_) => !l.closed
    case Taking => l.taking
    case Leaving(w, reader) => w in l.waiting && w !in l.head && (reader ==> !l.taking)
    case Looking => l.reading
  }

  function Go<T(==)>(l: WaitList<T>, m: Move<T>): WaitList<T> {
    if !Can(l, m) then l
    else
      match m
      case Joining(w) => Join(l, w)
      case Rechecking(w) => Recheck(l, w)
      case Closing(exc) => Close(l, exc)
      case Taking => Take(l)
      case Leaving(w, reader) => Leave(l, w, reader)
      case Looking => Look(l)
  }

  function Goes<T(==)>(l: WaitList<T>, ms: seq<Move<T>>): WaitList<T>
    decreases |ms|
  {
    if ms == [] then l else Goes(Go(l, ms[0]), ms[1..])
  }

  /** Nobody can be let go before the list is closed, nor does anybody look at what is gone. */
  predicate Good<T(==)>(l: WaitList<T>) {
    (l.closed || l.waiting <= l.head) && !l.deleted
  }

  /** Whatever is done with it from now on. */
  ghost predicate Fit<T(!new)>(l: WaitList<T>) {
    forall ms :: Good(Goes(l, ms))
  }

  lemma {:induction false} GoesSound<T(!new)>(l: WaitList<T>, ms: seq<Move<T>>)
    requires Sound(l) && l.waiting <= l.joined
    ensures Sound(Goes(l, ms)) && Goes(l, ms).waiting <= Goes(l, ms).joined
    decreases |ms|
  {
    if ms != [] {
      GoesSound(Go(l, ms[0]), ms[1..]);
    }
  }

  /** A list just opened, with nobody in it, is fit exactly when its last closer is past the
      head and does not look at what is gone. `w` is anybody. */
  lemma FitExactly<T(!new)>(l: WaitList<T>, w: T)
    requires !l.closed && l.waiting == {} && l.head == {} && l.joined == {}
    ensures Fit(l) <==> !l.taking && !l.deleted
  {
    if !l.taking && !l.deleted {
      forall ms ensures Good(Goes(l, ms)) {
        GoesSound(l, ms);
      }
    } else {
      var ms: seq<Move<T>> := [Joining(w), Taking];
      var rest: seq<Move<T>> := [Taking];
      assert ms[1..] == rest && rest[1..] == [];
      assert Goes(Go(l, ms[0]), rest) == Go(Go(l, ms[0]), Taking);
      assert !Good(Goes(l, ms));
    }
  }
}
