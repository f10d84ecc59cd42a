// The modules of the events in flight as one acyclic graph, and what the single-threaded
// framework makes of it: every module evaluated on demand, once, after what it gets.
// A node is one module of one event; its work is a pure function of what it got.

module ModuleGraphs {
  import opened Basics

  /** What a module's own code does: put a product (for a filter: not 0 to keep the event),
      or throw. */
  datatype Outcome = Put(value: int) | Threw

  datatype Result = Ok(value: int) | Failed

  /** `deps` are the getters of each node in the order they were registered; `rank` falls
      along every getter, so that the graph is acyclic. */
  datatype Graph = Graph(
    deps: seq<seq<nat>>,
    rank: seq<nat>,
    work: (nat, seq<int>) -> Outcome)

  ghost predicate Acyclic(g: Graph) {
    && |g.rank| == |g.deps|
    && forall n, i {:trigger g.deps[n][i]} | 0 <= n < |g.deps| && 0 <= i < |g.deps[n]| ::
         g.deps[n][i] < |g.deps| && g.rank[g.deps[n][i]] < g.rank[n]
  }

  predicate Node(g: Graph, n: nat) {
    n < |g.deps|
  }

  /** The value of a node as the recursive evaluation gives it. */
  ghost function Eval(g: Graph, n: nat): Result
    requires Acyclic(g) && Node(g, n)
    decreases g.rank[n], 1, 0
  {
    var inputs := Inputs(g, n, |g.deps[n]|);
    if inputs == None then Failed
    else match g.work(n, inputs.value)
      case Put(v) => Ok(v)
      case Threw => Failed
  }

  /** The values of the first k getters of n, or none if one of them fails. */
  ghost function Inputs(g: Graph, n: nat, k: nat): (r: Option<seq<int>>)
    requires Acyclic(g) && Node(g, n) && k <= |g.deps[n]|
    ensures r.Some? ==> |r.value| == k
    decreases g.rank[n], 0, k
  {
    if k == 0 then Some([])
    else
      var before := Inputs(g, n, k - 1);
      var last := Eval(g, g.deps[n][k - 1]);
      if before == None || last == Failed then None else Some(before.value + [last.value])
  }

  /** The inputs are there exactly when every getter has a value, and are those values. */
  lemma {:induction false} InputsAre(g: Graph, n: nat, k: nat)
    requires Acyclic(g) && Node(g, n) && k <= |g.deps[n]|
    ensures Inputs(g, n, k).Some? <==> forall i | 0 <= i < k :: Eval(g, g.deps[n][i]).Ok?
    ensures Inputs(g, n, k).Some? ==>
      forall i | 0 <= i < k :: Eval(g, g.deps[n][i]) == Ok(Inputs(g, n, k).value[i])
    decreases k
  {
    if k > 0 {
      InputsAre(g, n, k - 1);
    }
  }

  /** These are the values of what n gets, in the order of its getters. */
  ghost predicate AreInputs(g: Graph, n: nat, inputs: seq<int>)
    requires Acyclic(g) && Node(g, n)
  {
    |inputs| == |g.deps[n]| && forall i | 0 <= i < |inputs| :: Eval(g, g.deps[n][i]) == Ok(inputs[i])
  }

  /** A node has the value that its own code puts when it gets the values of its getters, and no
      other; and none if one of them has none, or its code throws on them. */
  lemma EvalIs(g: Graph, n: nat, v: int)
    requires Acyclic(g) && Node(g, n)
    ensures Eval(g, n) == Ok(v) <==> exists inputs :: AreInputs(g, n, inputs) && g.work(n, inputs) == Put(v)
  {
    InputsAre(g, n, |g.deps[n]|);
    var inputs := Inputs(g, n, |g.deps[n]|);
    if inputs.Some? {
      assert AreInputs(g, n, inputs.value);
      forall others | AreInputs(g, n, others) ensures others == inputs.value {
        assert forall i | 0 <= i < |others| :: Ok(others[i]) == Eval(g, g.deps[n][i]) == Ok(inputs.value[i]);
      }
    }
  }

  /** The nodes whose own code makes n fail. */
  ghost function Culprits(g: Graph, n: nat): set<nat>
    requires Acyclic(g) && Node(g, n)
    decreases g.rank[n], 1, 0
  {
    if Inputs(g, n, |g.deps[n]|) == None then DepCulprits(g, n, |g.deps[n]|)
    else if Eval(g, n) == Failed then {n}
    else {}
  }

  ghost function DepCulprits(g: Graph, n: nat, k: nat): set<nat>
    requires Acyclic(g) && Node(g, n) && k <= |g.deps[n]|
    decreases g.rank[n], 0, k
  {
    if k == 0 then {} else DepCulprits(g, n, k - 1) + Culprits(g, g.deps[n][k - 1])
  }

  lemma {:induction false} DepCulpritsHas(g: Graph, n: nat, k: nat, i: nat)
    requires Acyclic(g) && Node(g, n) && i < k <= |g.deps[n]|
    ensures Culprits(g, g.deps[n][i]) <= DepCulprits(g, n, k)
    decreases k
  {
    if i < k - 1 {
      DepCulpritsHas(g, n, k - 1, i);
    }
  }

  /** Only a failing node has culprits; each is needed, and its own code throws on good inputs. */
  lemma {:induction false} CulpritsFail(g: Graph, n: nat)
    requires Acyclic(g) && Node(g, n)
    ensures Culprits(g, n) != {} ==> Eval(g, n) == Failed
    ensures forall c | c in Culprits(g, n) ::
      c in Needs(g, n) && Node(g, c) && Inputs(g, c, |g.deps[c]|).Some?
      && g.work(c, Inputs(g, c, |g.deps[c]|).value) == Threw
    decreases g.rank[n], 1, 0
  {
    DepCulpritsFail(g, n, |g.deps[n]|);
  }

  lemma {:induction false} DepCulpritsFail(g: Graph, n: nat, k: nat)
    requires Acyclic(g) && Node(g, n) && k <= |g.deps[n]|
    ensures DepCulprits(g, n, k) != {} ==> Inputs(g, n, k) == None
    ensures forall c | c in DepCulprits(g, n, k) ::
      c in DepNeeds(g, n, k) && Node(g, c) && Inputs(g, c, |g.deps[c]|).Some?
      && g.work(c, Inputs(g, c, |g.deps[c]|).value) == Threw
    decreases g.rank[n], 0, k
  {
    if k > 0 {
      DepCulpritsFail(g, n, k - 1);
      CulpritsFail(g, g.deps[n][k - 1]);
    }
  }

  /** A getter that fails leaves the node without inputs. */
  lemma InputsMissing(g: Graph, n: nat, i: nat)
    requires Acyclic(g) && Node(g, n) && i < |g.deps[n]| && Eval(g, g.deps[n][i]) == Failed
    ensures Inputs(g, n, |g.deps[n]|) == None && Eval(g, n) == Failed
  {
    InputsAre(g, n, |g.deps[n]|);
  }

  /** What has to run so that n can: n and all it gets, directly or not. */
  ghost function Needs(g: Graph, n: nat): set<nat>
    requires Acyclic(g) && Node(g, n)
    decreases g.rank[n], 1, 0
  {
    {n} + DepNeeds(g, n, |g.deps[n]|)
  }

  ghost function DepNeeds(g: Graph, n: nat, k: nat): set<nat>
    requires Acyclic(g) && Node(g, n) && k <= |g.deps[n]|
    decreases g.rank[n], 0, k
  {
    if k == 0 then {} else DepNeeds(g, n, k - 1) + Needs(g, g.deps[n][k - 1])
  }

  lemma {:induction false} DepNeedsHas(g: Graph, n: nat, k: nat, i: nat)
    requires Acyclic(g) && Node(g, n) && i < k <= |g.deps[n]|
    ensures Needs(g, g.deps[n][i]) <= DepNeeds(g, n, k)
    decreases k
  {
    if i < k - 1 {
      DepNeedsHas(g, n, k - 1, i);
    }
  }

  /** What is needed is closed under getters. */
  lemma {:induction false} NeedsClosed(g: Graph, n: nat, m: nat, i: nat)
    requires Acyclic(g) && Node(g, n) && m in Needs(g, n) && Node(g, m) && i < |g.deps[m]|
    ensures g.deps[m][i] in Needs(g, n)
    decreases g.rank[n], 1, 0
  {
    if m == n {
      DepNeedsHas(g, n, |g.deps[n]|, i);
    } else {
      DepNeedsClosed(g, n, |g.deps[n]|, m, i);
    }
  }

  lemma {:induction false} DepNeedsClosed(g: Graph, n: nat, k: nat, m: nat, i: nat)
    requires Acyclic(g) && Node(g, n) && k <= |g.deps[n]|
    requires m in DepNeeds(g, n, k) && Node(g, m) && i < |g.deps[m]|
    ensures g.deps[m][i] in DepNeeds(g, n, k)
    decreases g.rank[n], 0, k
  {
    if k > 0 {
      if m in DepNeeds(g, n, k - 1) {
        DepNeedsClosed(g, n, k - 1, m, i);
      } else {
        NeedsClosed(g, g.deps[n][k - 1], m, i);
      }
    }
  }

  /** From n to m by these getters, one after the other. */
  predicate GettersLead(g: Graph, n: nat, m: nat, getters: seq<nat>)
    decreases |getters|
  {
    Node(g, n) &&
    if getters == [] then m == n
    else getters[0] < |g.deps[n]| && GettersLead(g, g.deps[n][getters[0]], m, getters[1..])
  }

  /** What is needed is what a chain of getters leads to. */
  lemma {:induction false} NeedsAreChains(g: Graph, n: nat, m: nat)
    requires Acyclic(g) && Node(g, n)
    ensures m in Needs(g, n) ==> exists getters: seq<nat> :: GettersLead(g, n, m, getters)
    ensures (exists getters: seq<nat> :: GettersLead(g, n, m, getters)) ==> m in Needs(g, n)
    decreases g.rank[n], 1, 0
  {
    if m == n {
      var none: seq<nat> := [];
      assert GettersLead(g, n, m, none);
    } else if m in Needs(g, n) {
      var getters := NeededByChain(g, n, |g.deps[n]|, m);
      assert GettersLead(g, n, m, getters);
    }
    forall getters: seq<nat> | GettersLead(g, n, m, getters) ensures m in Needs(g, n) {
      ChainIsNeeded(g, n, m, getters);
    }
  }

  lemma {:induction false} NeededByChain(g: Graph, n: nat, k: nat, m: nat) returns (getters: seq<nat>)
    requires Acyclic(g) && Node(g, n) && k <= |g.deps[n]| && m in DepNeeds(g, n, k)
    ensures GettersLead(g, n, m, getters)
    decreases g.rank[n], 0, k
  {
    if m in DepNeeds(g, n, k - 1) {
      getters := NeededByChain(g, n, k - 1, m);
    } else {
      var d := g.deps[n][k - 1];
      NeedsAreChains(g, d, m);
      var rest: seq<nat> :| GettersLead(g, d, m, rest);
      getters := [k - 1] + rest;
      assert getters[1..] == rest;
    }
  }

  lemma {:induction false} ChainIsNeeded(g: Graph, n: nat, m: nat, getters: seq<nat>)
    requires Acyclic(g) && Node(g, n) && GettersLead(g, n, m, getters)
    ensures m in Needs(g, n)
    decreases |getters|
  {
    if getters != [] {
      ChainIsNeeded(g, g.deps[n][getters[0]], m, getters[1..]);
      DepNeedsHas(g, n, |g.deps[n]|, getters[0]);
    }
  }

  // ---------- paths of filters ----------

  ghost predicate Keeps(g: Graph, f: nat)
    requires Acyclic(g) && Node(g, f)
  {
    Eval(g, f).Ok? && Eval(g, f).value != 0
  }

  ghost predicate Filters(g: Graph, fs: seq<nat>) {
    forall k | 0 <= k < |fs| :: Node(g, fs[k])
  }

  /** The first k filters of a path keep the event. */
  ghost predicate KeptUpTo(g: Graph, fs: seq<nat>, k: nat)
    requires Acyclic(g) && Filters(g, fs) && k <= |fs|
  {
    forall j | 0 <= j < k :: Keeps(g, fs[j])
  }

  /** How many filters the sequential path runs: up to the first that does not keep. */
  ghost function Visited(g: Graph, fs: seq<nat>, from: nat): (v: nat)
    requires Acyclic(g) && Filters(g, fs) && from <= |fs|
    ensures from <= v <= |fs|
    decreases |fs| - from
  {
    if from == |fs| then from
    else if Keeps(g, fs[from]) then Visited(g, fs, from + 1)
    else from + 1
  }

  /** Where the sequential path stops is where kept filters end. */
  lemma {:induction false} VisitedIs(g: Graph, fs: seq<nat>, from: nat, k: nat)
    requires Acyclic(g) && Filters(g, fs) && from <= k <= |fs|
    requires forall j | from <= j < k - 1 :: Eval(g, fs[j]).Ok? && Eval(g, fs[j]).value != 0
    requires k == |fs| || (from < k && (Eval(g, fs[k - 1]).Ok? ==> Eval(g, fs[k - 1]).value == 0))
    ensures Visited(g, fs, from) == k
    decreases k - from
  {
    if from < k - 1 {
      VisitedIs(g, fs, from + 1, k);
    }
  }

  /** No filter fails that the sequential path runs. */
  ghost predicate GoesWell(g: Graph, fs: seq<nat>)
    requires Acyclic(g) && Filters(g, fs)
  {
    forall j | 0 <= j < Visited(g, fs, 0) :: Eval(g, fs[j]).Ok?
  }

  /** What a module that has a value needs has values. */
  lemma {:induction false} NeedsHaveValues(g: Graph, n: nat, m: nat)
    requires Acyclic(g) && Node(g, n) && Eval(g, n).Ok? && m in Needs(g, n)
    ensures Node(g, m) && Eval(g, m).Ok?
    decreases g.rank[n], 1, 0
  {
    if m != n {
      DepNeedsHaveValues(g, n, |g.deps[n]|, m);
    }
  }

  lemma {:induction false} DepNeedsHaveValues(g: Graph, n: nat, k: nat, m: nat)
    requires Acyclic(g) && Node(g, n) && k <= |g.deps[n]| && Inputs(g, n, k).Some? && m in DepNeeds(g, n, k)
    ensures Node(g, m) && Eval(g, m).Ok?
    decreases g.rank[n], 0, k
  {
    if k > 0 {
      if m in DepNeeds(g, n, k - 1) {
        DepNeedsHaveValues(g, n, k - 1, m);
      } else {
        NeedsHaveValues(g, g.deps[n][k - 1], m);
      }
    }
  }
}
