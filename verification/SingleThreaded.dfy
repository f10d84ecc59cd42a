// The single-threaded framework: modules are run on demand by plain recursion and remember
// that they ran. It is the specification of the concurrent ones: what it does for an event
// is what ModuleGraph.dfy calls the evaluation.

module SingleThreaded {
  import opened Basics
  import opened ModuleGraphs

  ghost predicate AllFilters(g: Graph, paths: seq<seq<nat>>) {
    forall p | 0 <= p < |paths| :: Filters(g, paths[p])
  }

  /** What the first k filters of a path need. */
  ghost function PathNeeds(g: Graph, fs: seq<nat>, k: nat): set<nat>
    requires Acyclic(g) && Filters(g, fs) && k <= |fs|
  {
    if k == 0 then {} else PathNeeds(g, fs, k - 1) + Needs(g, fs[k - 1])
  }

  lemma {:induction false} PathNeedsAre(g: Graph, fs: seq<nat>, k: nat, n: nat)
    requires Acyclic(g) && Filters(g, fs) && k <= |fs|
    ensures n in PathNeeds(g, fs, k) <==> exists j :: 0 <= j < k && n in Needs(g, fs[j])
  {
    if k > 0 {
      PathNeedsAre(g, fs, k - 1, n);
    }
  }

  /** What the filters need that the first k paths visit. */
  ghost function ScheduleNeeds(g: Graph, paths: seq<seq<nat>>, k: nat): set<nat>
    requires Acyclic(g) && AllFilters(g, paths) && k <= |paths|
  {
    if k == 0 then {}
    else ScheduleNeeds(g, paths, k - 1) + PathNeeds(g, paths[k - 1], Visited(g, paths[k - 1], 0))
  }

  /** The j-th filter of path p is visited. */
  ghost predicate Visits(g: Graph, paths: seq<seq<nat>>, p: nat, j: nat)
    requires Acyclic(g) && AllFilters(g, paths)
  {
    p < |paths| && j < Visited(g, paths[p], 0)
  }

  lemma {:induction false} ScheduleNeedsAre(g: Graph, paths: seq<seq<nat>>, k: nat, n: nat)
    requires Acyclic(g) && AllFilters(g, paths) && k <= |paths|
    ensures n in ScheduleNeeds(g, paths, k)
      <==> exists p: nat, j: nat :: p < k && Visits(g, paths, p, j) && n in Needs(g, paths[p][j])
  {
    if k > 0 {
      ScheduleNeedsAre(g, paths, k - 1, n);
      var fs := paths[k - 1];
      PathNeedsAre(g, fs, Visited(g, fs, 0), n);
      if n in PathNeeds(g, fs, Visited(g, fs, 0)) {
        var j: nat :| j < Visited(g, fs, 0) && n in Needs(g, fs[j]);
        assert Visits(g, paths, k - 1, j);
      }
    }
  }

  predicate OnPaths(paths: seq<seq<nat>>, n: nat) {
    exists p :: 0 <= p < |paths| && n in paths[p]
  }

  /** None of the first k paths meets a filter that fails. */
  ghost predicate GoWell(g: Graph, paths: seq<seq<nat>>, k: nat)
    requires Acyclic(g) && AllFilters(g, paths) && k <= |paths|
  {
    k == 0 || (GoWell(g, paths, k - 1) && GoesWell(g, paths[k - 1]))
  }

  lemma {:induction false} GoWellIs(g: Graph, paths: seq<seq<nat>>, k: nat)
    requires Acyclic(g) && AllFilters(g, paths) && k <= |paths|
    ensures GoWell(g, paths, k) <==> forall p | 0 <= p < k :: GoesWell(g, paths[p])
  {
    if k > 0 {
      GoWellIs(g, paths, k - 1);
    }
  }

  /** The modules that ran are those that had before and these. */
  ghost predicate Grew(before: seq<bool>, after: seq<bool>, more: set<nat>) {
    |after| == |before| && forall n: nat | n < |before| :: after[n] <==> before[n] || n in more
  }

  ghost predicate Within(ran: seq<nat>, before: seq<bool>, more: set<nat>) {
    forall n | n in ran :: n < |before| && (before[n] || n in more)
  }

  predicate NoRepeats(s: seq<nat>) {
    forall j, k | 0 <= j < k < |s| :: s[j] != s[k]
  }

  lemma {:induction false} NeedsRank(g: Graph, n: nat, m: nat)
    requires Acyclic(g) && Node(g, n) && m in Needs(g, n)
    ensures Node(g, m) && (m == n || g.rank[m] < g.rank[n])
    decreases g.rank[n], 1, 0
  {
    if m != n {
      DepNeedsRank(g, n, |g.deps[n]|, m);
    }
  }

  lemma {:induction false} DepNeedsRank(g: Graph, n: nat, k: nat, m: nat)
    requires Acyclic(g) && Node(g, n) && k <= |g.deps[n]| && m in DepNeeds(g, n, k)
    ensures Node(g, m) && g.rank[m] < g.rank[n]
    decreases g.rank[n], 0, k
  {
    if k > 0 {
      if m in DepNeeds(g, n, k - 1) {
        DepNeedsRank(g, n, k - 1, m);
      } else {
        NeedsRank(g, g.deps[n][k - 1], m);
      }
    }
  }

  /** A set of modules that contains what its members get contains what they need. */
  ghost predicate ClosedUnderGetters(g: Graph, done: seq<bool>)
    requires Acyclic(g) && |done| == |g.deps|
  {
    forall n, i {:trigger g.deps[n][i]} | 0 <= n < |g.deps| && 0 <= i < |g.deps[n]| ::
      done[n] ==> done[g.deps[n][i]]
  }

  lemma {:induction false} NeedsInside(g: Graph, done: seq<bool>, n: nat, m: nat)
    requires Acyclic(g) && |done| == |g.deps| && ClosedUnderGetters(g, done)
    requires Node(g, n) && done[n] && m in Needs(g, n)
    ensures Node(g, m) && done[m]
    decreases g.rank[n], 1, 0
  {
    if m != n {
      DepNeedsInside(g, done, n, |g.deps[n]|, m);
    }
  }

  lemma {:induction false} DepNeedsInside(g: Graph, done: seq<bool>, n: nat, k: nat, m: nat)
    requires Acyclic(g) && |done| == |g.deps| && ClosedUnderGetters(g, done)
    requires Node(g, n) && done[n] && k <= |g.deps[n]| && m in DepNeeds(g, n, k)
    ensures Node(g, m) && done[m]
    decreases g.rank[n], 0, k
  {
    if k > 0 {
      if m in DepNeeds(g, n, k - 1) {
        DepNeedsInside(g, done, n, k - 1, m);
      } else {
        assert done[g.deps[n][k - 1]];
        NeedsInside(g, done, g.deps[n][k - 1], m);
      }
    }
  }

  /** The modules of the job with what they hold for the current event. An exception is
      modelled by the result ok: it ends the calls up to the top. */
  class Modules {
    var wasRun: seq<bool>        // m_wasRun
    var value: seq<int>          // the product in the event's lookup map; for a filter m_keep
    var gotten: seq<seq<int>>    // the values of the getters
    var ran: seq<nat>            // history: whose own code ran, in that order

    /** What holds between any two calls in the processing of an event. */
    ghost predicate Consistent(g: Graph)
      reads this
    {
      && Acyclic(g)
      && |wasRun| == |value| == |gotten| == |g.deps|
      && (forall n | 0 <= n < |g.deps| :: |gotten[n]| == |g.deps[n]|)
      && (forall n | 0 <= n < |g.deps| :: wasRun[n] ==> Eval(g, n) == Ok(value[n]))
      && ClosedUnderGetters(g, wasRun)
      && (forall n | n in ran :: Node(g, n))
      && NoRepeats(ran)
    }

    /** No exception is on its way up: the history is the flags. */
    ghost predicate Calm(g: Graph)
      reads this
    {
      Consistent(g) && forall n | 0 <= n < |g.deps| :: n in ran <==> wasRun[n]
    }

    /** Event::get(Getter*). */
    method Get(g: Graph, n: nat, i: nat) returns (ok: bool)
      requires Calm(g) && Node(g, n) && i < |g.deps[n]|
      modifies this
      ensures Consistent(g) && (ok ==> Calm(g))
      ensures ok <==> Eval(g, g.deps[n][i]).Ok?
      ensures ok ==> gotten[n] == old(gotten[n])[i := Eval(g, g.deps[n][i]).value]
      ensures ok ==> Grew(old(wasRun), wasRun, Needs(g, g.deps[n][i]))
      ensures Within(ran, old(wasRun), Needs(g, g.deps[n][i]))
      ensures forall m: nat | Node(g, m) && g.rank[m] > g.rank[n] :: gotten[m] == old(gotten[m])
      decreases g.rank[n], 0
    {
      var d := g.deps[n][i];
      ok := true;
      if !wasRun[d] {
        ok := DoProduce(g, d);
      } else {
        AllInside(g, wasRun, d);
      }
      if ok {
        gotten := gotten[n := gotten[n][i := value[d]]];
      }
    }

    /** Module::prefetch. */
    method Prefetch(g: Graph, n: nat) returns (ok: bool)
      requires Calm(g) && Node(g, n)
      modifies this
      ensures Consistent(g) && (ok ==> Calm(g))
      ensures ok <==> Inputs(g, n, |g.deps[n]|).Some?
      ensures ok ==> gotten[n] == Inputs(g, n, |g.deps[n]|).value
      ensures ok ==> Grew(old(wasRun), wasRun, DepNeeds(g, n, |g.deps[n]|))
      ensures Within(ran, old(wasRun), DepNeeds(g, n, |g.deps[n]|))
      ensures forall m: nat | Node(g, m) && g.rank[m] > g.rank[n] :: gotten[m] == old(gotten[m])
      decreases g.rank[n], 1
    {
      var i := 0;
      while i < |g.deps[n]|
        invariant i <= |g.deps[n]| && Calm(g)
        invariant Inputs(g, n, i).Some? && Inputs(g, n, i).value == gotten[n][..i]
        invariant Grew(old(wasRun), wasRun, DepNeeds(g, n, i))
        invariant forall m: nat | Node(g, m) && g.rank[m] > g.rank[n] :: gotten[m] == old(gotten[m])
      {
        ghost var before, ranBefore := gotten[n], wasRun;
        ok := Get(g, n, i);
        if !ok {
          InputsMissing(g, n, i);
          WithinNeeds(g, n, i, old(wasRun), ranBefore, ran);
          return;
        }
        GrewByGetter(g, n, i, old(wasRun), ranBefore, wasRun);
        assert gotten[n][..i + 1] == before[..i] + [Eval(g, g.deps[n][i]).value];
        i := i + 1;
      }
      assert gotten[n][..i] == gotten[n];
      ok := true;
    }

    /** Producer::doProduce, and the part of Filter::doFilter under its test. */
    method DoProduce(g: Graph, n: nat) returns (ok: bool)
      requires Calm(g) && Node(g, n) && !wasRun[n]
      modifies this
      ensures Consistent(g) && (ok ==> Calm(g))
      ensures ok <==> Eval(g, n).Ok?
      ensures |gotten[n]| == |g.deps[n]| && |value| == |g.deps|
      ensures ok ==> forall i | 0 <= i < |g.deps[n]| :: wasRun[g.deps[n][i]] && gotten[n][i] == value[g.deps[n][i]]
      ensures ok ==> wasRun[n] && g.work(n, gotten[n]) == Put(value[n])
      ensures ok ==> Grew(old(wasRun), wasRun, Needs(g, n))
      ensures Within(ran, old(wasRun), Needs(g, n))
      ensures forall m: nat | Node(g, m) && g.rank[m] > g.rank[n] :: gotten[m] == old(gotten[m])
      decreases g.rank[n], 2
    {
      ok := Prefetch(g, n);
      if !ok {
        return;
      }
      NotItsOwnNeed(g, n);
      GettersInside(g, old(wasRun), wasRun, n);
      InputsAre(g, n, |g.deps[n]|);
      ran := ran + [n];
      var outcome := g.work(n, gotten[n]);
      match outcome
      case Threw =>
        ok := false;
      case Put(v) =>
        value := value[n := v];
        wasRun := wasRun[n := true];
    }

    /** Filter::doFilter. */
    method DoFilter(g: Graph, f: nat) returns (ok: bool, keep: bool)
      requires Calm(g) && Node(g, f)
      modifies this
      ensures Consistent(g) && (ok ==> Calm(g))
      ensures ok <==> Eval(g, f).Ok?
      ensures keep <==> Eval(g, f).Ok? && Eval(g, f).value != 0
      ensures ok ==> Grew(old(wasRun), wasRun, Needs(g, f))
    {
      ok := true;
      if !wasRun[f] {
        ok := DoProduce(g, f);
      } else {
        AllInside(g, wasRun, f);
      }
      keep := ok && value[f] != 0;
    }

    /** Path::run. `visited` is how many filters it called. */
    method RunPath(g: Graph, fs: seq<nat>) returns (ok: bool, visited: nat)
      requires Calm(g) && Filters(g, fs)
      modifies this
      ensures Consistent(g) && (ok ==> Calm(g))
      ensures visited == Visited(g, fs, 0)
      ensures ok <==> GoesWell(g, fs)
      ensures ok ==> Grew(old(wasRun), wasRun, PathNeeds(g, fs, visited))
    {
      visited := 0;
      ok := true;
      var keep := true;
      while visited < |fs| && keep
        invariant visited <= |fs| && Calm(g)
        invariant forall j | 0 <= j < visited - 1 :: Keeps(g, fs[j])
        invariant keep <==> visited == 0 || Keeps(g, fs[visited - 1])
        invariant forall j | 0 <= j < visited :: Eval(g, fs[j]).Ok?
        invariant Grew(old(wasRun), wasRun, PathNeeds(g, fs, visited))
        decreases |fs| - visited
      {
        ok, keep := DoFilter(g, fs[visited]);
        visited := visited + 1;
        if !ok {
          VisitedIs(g, fs, 0, visited);
          return;
        }
      }
      VisitedIs(g, fs, 0, visited);
    }

    /** Schedule::reset: the filters of the paths forget that they ran. */
    method ResetFilters(paths: seq<seq<nat>>)
      requires forall p, k | 0 <= p < |paths| && 0 <= k < |paths[p]| :: paths[p][k] < |wasRun|
      modifies `wasRun
      ensures |wasRun| == |old(wasRun)|
      ensures forall n: nat | n < |wasRun| :: wasRun[n] <==> old(wasRun)[n] && !OnPaths(paths, n)
    {
      var p := 0;
      while p < |paths|
        invariant p <= |paths| && |wasRun| == |old(wasRun)|
        invariant forall n: nat | n < |wasRun| :: wasRun[n] <==> old(wasRun)[n] && !OnPaths(paths[..p], n)
      {
        ghost var before := wasRun;
        var k := 0;
        while k < |paths[p]|
          invariant k <= |paths[p]| && |wasRun| == |old(wasRun)|
          invariant forall n: nat | n < |wasRun| :: wasRun[n] <==> before[n] && n !in paths[p][..k]
        {
          wasRun := wasRun[paths[p][k] := false];
          assert paths[p][..k + 1] == paths[p][..k] + [paths[p][k]];
          k := k + 1;
        }
        assert paths[p][..k] == paths[p];
        assert paths[..p + 1] == paths[..p] + [paths[p]];
        forall n: nat ensures OnPaths(paths[..p + 1], n) <==> OnPaths(paths[..p], n) || n in paths[p] {
          OnOneMore(paths, p, n);
        }
        p := p + 1;
      }
      assert paths[..p] == paths;
    }

    /** The loop of Schedule::process. */
    method RunPaths(g: Graph, paths: seq<seq<nat>>) returns (ok: bool)
      requires Calm(g) && AllFilters(g, paths)
      modifies this
      ensures Consistent(g) && (ok ==> Calm(g))
      ensures ok <==> GoWell(g, paths, |paths|)
      ensures ok ==> Grew(old(wasRun), wasRun, ScheduleNeeds(g, paths, |paths|))
    {
      var p := 0;
      ok := true;
      while p < |paths|
        invariant p <= |paths| && Calm(g)
        invariant GoWell(g, paths, p)
        invariant Grew(old(wasRun), wasRun, ScheduleNeeds(g, paths, p))
      {
        ghost var before := wasRun;
        var visited;
        ok, visited := RunPath(g, paths[p]);
        if !ok {
          GoWellIs(g, paths, |paths|);
          return;
        }
        GrewByPath(g, paths, p, old(wasRun), before, wasRun);
        p := p + 1;
      }
    }

    /** Schedule::process, for an event whose producers have been reset. Exactly what the
        visited filters need is run, each module once, and it leaves the evaluation's values;
        or else some visited filter fails. */
    method Process(g: Graph, paths: seq<seq<nat>>) returns (ok: bool)
      requires Acyclic(g) && AllFilters(g, paths)
      requires |wasRun| == |value| == |gotten| == |g.deps|
      requires forall n | 0 <= n < |g.deps| :: |gotten[n]| == |g.deps[n]|
      requires forall n: nat | n < |wasRun| && wasRun[n] :: OnPaths(paths, n)
      modifies this
      ensures Consistent(g) && (ok ==> Calm(g))
      ensures ok <==> forall p | 0 <= p < |paths| :: GoesWell(g, paths[p])
      ensures ok ==> forall n: nat | Node(g, n) :: wasRun[n] <==> n in ScheduleNeeds(g, paths, |paths|)
    {
      ran := [];
      ResetFilters(paths);
      assert forall n: nat | n < |wasRun| :: !wasRun[n];
      ok := RunPaths(g, paths);
      GoWellIs(g, paths, |paths|);
    }
  }

  /** Whatever the modules hold between two calls: a module that has run gets from modules that
      have run, and holds what its own code puts when it gets what they hold. */
  lemma HeldIsPut(g: Graph, modules: Modules, n: nat)
    requires modules.Consistent(g) && n < |modules.wasRun| && modules.wasRun[n]
    ensures |modules.value| == |modules.wasRun| == |g.deps|
    ensures exists inputs ::
      && |inputs| == |g.deps[n]|
      && (forall i | 0 <= i < |inputs| :: modules.wasRun[g.deps[n][i]] && inputs[i] == modules.value[g.deps[n][i]])
      && g.work(n, inputs) == Put(modules.value[n])
  {
    EvalIs(g, n, modules.value[n]);
    var inputs :| AreInputs(g, n, inputs) && g.work(n, inputs) == Put(modules.value[n]);
    forall i | 0 <= i < |inputs| ensures modules.wasRun[g.deps[n][i]] && inputs[i] == modules.value[g.deps[n][i]] {
      assert Eval(g, g.deps[n][i]) == Ok(modules.value[g.deps[n][i]]);
    }
  }

  lemma GrewByGetter(g: Graph, n: nat, i: nat, a: seq<bool>, b: seq<bool>, c: seq<bool>)
    requires Acyclic(g) && Node(g, n) && i < |g.deps[n]|
    requires Grew(a, b, DepNeeds(g, n, i)) && Grew(b, c, Needs(g, g.deps[n][i]))
    ensures Grew(a, c, DepNeeds(g, n, i + 1))
  {
  }

  lemma WithinNeeds(g: Graph, n: nat, i: nat, a: seq<bool>, b: seq<bool>, ran: seq<nat>)
    requires Acyclic(g) && Node(g, n) && i < |g.deps[n]|
    requires Grew(a, b, DepNeeds(g, n, i)) && Within(ran, b, Needs(g, g.deps[n][i]))
    ensures Within(ran, a, DepNeeds(g, n, |g.deps[n]|))
  {
    PartOfNeeds(g, n, i + 1);
  }

  lemma GrewByPath(g: Graph, paths: seq<seq<nat>>, p: nat, a: seq<bool>, b: seq<bool>, c: seq<bool>)
    requires Acyclic(g) && AllFilters(g, paths) && p < |paths|
    requires Grew(a, b, ScheduleNeeds(g, paths, p))
    requires Grew(b, c, PathNeeds(g, paths[p], Visited(g, paths[p], 0)))
    ensures Grew(a, c, ScheduleNeeds(g, paths, p + 1))
  {
  }

  lemma OnOneMore(paths: seq<seq<nat>>, p: nat, n: nat)
    requires p < |paths|
    ensures OnPaths(paths[..p + 1], n) <==> OnPaths(paths[..p], n) || n in paths[p]
  {
    if OnPaths(paths[..p], n) {
      var q: nat :| q < p && n in paths[..p][q];
      assert n in paths[..p + 1][q];
    }
    if n in paths[p] {
      assert n in paths[..p + 1][p];
    }
  }

  lemma AllInside(g: Graph, done: seq<bool>, n: nat)
    requires Acyclic(g) && |done| == |g.deps| && ClosedUnderGetters(g, done) && Node(g, n) && done[n]
    ensures Grew(done, done, Needs(g, n))
  {
    forall m: nat | m < |done| ensures done[m] <==> done[m] || m in Needs(g, n) {
      if m in Needs(g, n) {
        NeedsInside(g, done, n, m);
      }
    }
  }

  lemma NotItsOwnNeed(g: Graph, n: nat)
    requires Acyclic(g) && Node(g, n)
    ensures n !in DepNeeds(g, n, |g.deps[n]|)
  {
    if n in DepNeeds(g, n, |g.deps[n]|) {
      DepNeedsRank(g, n, |g.deps[n]|, n);
      assert false;
    }
  }

  lemma GettersInside(g: Graph, before: seq<bool>, after: seq<bool>, n: nat)
    requires Acyclic(g) && Node(g, n) && |before| == |g.deps|
    requires Grew(before, after, DepNeeds(g, n, |g.deps[n]|))
    ensures forall i | 0 <= i < |g.deps[n]| :: after[g.deps[n][i]]
  {
    forall i | 0 <= i < |g.deps[n]| ensures after[g.deps[n][i]] {
      DepNeedsHas(g, n, |g.deps[n]|, i);
      assert g.deps[n][i] in Needs(g, g.deps[n][i]);
    }
  }

  lemma {:induction false} PartOfNeeds(g: Graph, n: nat, k: nat)
    requires Acyclic(g) && Node(g, n) && k <= |g.deps[n]|
    ensures DepNeeds(g, n, k) <= DepNeeds(g, n, |g.deps[n]|)
    decreases |g.deps[n]| - k
  {
    if k < |g.deps[n]| {
      PartOfNeeds(g, n, k + 1);
    }
  }
}
