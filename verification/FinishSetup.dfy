// What finishSetup works out before the first event: which of the modules that a module
// might get could be asked for along another way, so that getting them on demand could
// deadlock. Modules are looked up by label, and told apart by the number each got.

module FinishSetups {

  class Module {
    const id: nat
    const name: string
    const getters: seq<string>          // labels of what is prefetched
    const mightGetters: seq<string>     // labels of what might be got
    var dependentModulesToCheck: seq<nat>

    constructor (id: nat, name: string, getters: seq<string>, mightGetters: seq<string>)
      ensures this.id == id && this.name == name
      ensures this.getters == getters && this.mightGetters == mightGetters
      ensures dependentModulesToCheck == []
    {
      this.id, this.name, this.getters, this.mightGetters := id, name, getters, mightGetters;
      dependentModulesToCheck := [];
    }

    /** std::binary_search. */
    method IsADependentModule(moduleID: nat) returns (found: bool)
      requires Ascending(dependentModulesToCheck)
      ensures found <==> moduleID in dependentModulesToCheck
    {
      var ids := dependentModulesToCheck;
      var lo, hi := 0, |ids|;
      while lo < hi
        invariant 0 <= lo <= hi <= |ids|
        invariant forall k | 0 <= k < lo :: ids[k] < moduleID
        invariant forall k | hi <= k < |ids| :: ids[k] >= moduleID
      {
        var mid := (lo + hi) / 2;
        if ids[mid] < moduleID {
          lo := mid + 1;
        } else {
          hi := mid;
        }
      }
      found := lo < |ids| && ids[lo] == moduleID;
    }
  }

  type Producers = map<string, Module>

  predicate Ascending(s: seq<nat>) {
    forall j, k | 0 <= j < k < |s| :: s[j] < s[k]
  }

  /** What a module gets, in the order in which it is searched. */
  function Items(m: Module): seq<string> {
    m.mightGetters + m.getters
  }

  // ---------- the job ----------

  /** Everything the module gets is there, and the numbers in `rank` fall along it. */
  ghost predicate Placed(prods: Producers, rank: nat -> nat, top: nat, m: Module) {
    && rank(m.id) <= top
    && forall l | l in Items(m) :: l in prods && rank(prods[l].id) < rank(m.id)
  }

  /** The job is acyclic, and no two producers have one number. */
  ghost predicate Acyclic(prods: Producers, rank: nat -> nat, top: nat) {
    && (forall l | l in prods :: Placed(prods, rank, top, prods[l]))
    && (forall k, l | k in prods && l in prods && prods[k].id == prods[l].id :: k == l)
  }

  // ---------- consumers ----------

  /** Module number c gets what module number p produces. */
  ghost predicate Gets(prods: Producers, m: Module, c: nat, p: nat) {
    m.id == c && exists l :: l in Items(m) && l in prods && prods[l].id == p
  }

  ghost predicate Consumes(prods: Producers, filters: seq<Module>, c: nat, p: nat) {
    FilterConsumes(prods, filters, c, p) || ProducerConsumes(prods, {}, c, p)
  }

  ghost predicate FilterConsumes(prods: Producers, filters: seq<Module>, c: nat, p: nat) {
    exists m :: m in filters && Gets(prods, m, c, p)
  }

  /** A producer that does not have one of these labels. */
  ghost predicate ProducerConsumes(prods: Producers, left: set<string>, c: nat, p: nat) {
    exists l :: l in prods && l !in left && Gets(prods, prods[l], c, p)
  }

  /** A chain of consumers from child up to a module that nobody consumes, which does not
      pass the parent after its first module. */
  ghost predicate ConsumerChain(prods: Producers, filters: seq<Module>, parent: nat, child: nat, chain: seq<nat>) {
    && chain != [] && chain[0] == child
    && (forall i, j | 0 <= i && j == i + 1 && j < |chain| ::
          Consumes(prods, filters, chain[j], chain[i]) && chain[j] != parent)
    && Unconsumed(prods, filters, chain[|chain| - 1])
  }

  ghost predicate Unconsumed(prods: Producers, filters: seq<Module>, p: nat) {
    forall c :: !Consumes(prods, filters, c, p)
  }

  type Dependencies = map<nat, seq<nat>>

  /** The inverse of the getters: each producer's consumers, and no entry without any. */
  ghost predicate Inverse(deps: Dependencies, prods: Producers, filters: seq<Module>) {
    && (forall p, c :: Has(deps, p, c) <==> Consumes(prods, filters, c, p))
    && (forall p | p in deps :: deps[p] != [])
  }

  ghost predicate Chain(deps: Dependencies, parent: nat, child: nat, chain: seq<nat>) {
    && chain != [] && chain[0] == child
    && (forall i, j | 0 <= i && j == i + 1 && j < |chain| ::
          Has(deps, chain[i], chain[j]) && chain[j] != parent)
    && chain[|chain| - 1] !in deps
  }

  ghost predicate Alternate(deps: Dependencies, parent: nat, child: nat) {
    exists chain :: Chain(deps, parent, child, chain)
  }

  lemma ChainsAgree(deps: Dependencies, prods: Producers, filters: seq<Module>, parent: nat, child: nat, chain: seq<nat>)
    requires Inverse(deps, prods, filters)
    ensures Chain(deps, parent, child, chain) <==> ConsumerChain(prods, filters, parent, child, chain)
  {
    if chain != [] {
      var last := chain[|chain| - 1];
      if last in deps {
        assert Has(deps, last, deps[last][0]);
      }
      forall c: nat ensures Has(deps, last, c) <==> Consumes(prods, filters, c, last) {
      }
    }
  }

  /** Consumers have the higher rank. */
  ghost predicate Rising(deps: Dependencies, rank: nat -> nat, top: nat) {
    forall p, c | p in deps && c in deps[p] :: rank(p) < rank(c) <= top
  }

  ghost function Above(rank: nat -> nat, top: nat, child: nat): nat {
    if rank(child) <= top then top - rank(child) else 0
  }

  lemma Longer(deps: Dependencies, parent: nat, child: nat, c: nat, chain: seq<nat>)
    requires child in deps && c in deps[child] && c != parent && Chain(deps, parent, c, chain)
    ensures Chain(deps, parent, child, [child] + chain)
  {
    var longer := [child] + chain;
    forall i, j | 0 <= i && j == i + 1 && j < |longer|
      ensures Has(deps, longer[i], longer[j]) && longer[j] != parent
    {
      if i > 0 {
        assert longer[i] == chain[i - 1] && longer[j] == chain[j - 1];
      }
    }
  }

  lemma Shorter(deps: Dependencies, parent: nat, child: nat, chain: seq<nat>)
    requires child in deps && Chain(deps, parent, child, chain)
    ensures |chain| > 1 && chain[1] in deps[child] && chain[1] != parent && Alternate(deps, parent, chain[1])
  {
    var rest := chain[1..];
    forall i, j | 0 <= i && j == i + 1 && j < |rest| ensures Has(deps, rest[i], rest[j]) && rest[j] != parent {
      assert rest[i] == chain[i + 1] && rest[j] == chain[j + 1];
    }
    assert Has(deps, chain[0], chain[1]);
    assert Chain(deps, parent, chain[1], rest);
  }

  /** The recursive search: true exactly when there is an alternate chain of consumers. It
      ends, because ranks rise. */
  method AlternateDependencyPaths(parent: nat, child: nat, deps: Dependencies, ghost rank: nat -> nat, ghost top: nat)
    returns (alternate: bool)
    requires Rising(deps, rank, top)
    ensures alternate <==> Alternate(deps, parent, child)
    decreases Above(rank, top, child)
  {
    if child in deps {
      var i := 0;
      while i < |deps[child]|
        invariant i <= |deps[child]|
        invariant forall j | 0 <= j < i :: deps[child][j] == parent || !Alternate(deps, parent, deps[child][j])
      {
        var c := deps[child][i];
        if c != parent {
          var found := AlternateDependencyPaths(parent, c, deps, rank, top);
          if found {
            ghost var chain :| Chain(deps, parent, c, chain);
            Longer(deps, parent, child, c, chain);
            return true;
          }
        }
        i := i + 1;
      }
      if chain :| Chain(deps, parent, child, chain) {
        Shorter(deps, parent, child, chain);
        assert false;
      }
      return false;
    } else {
      assert Chain(deps, parent, child, [child]);
      return true;
    }
  }

  /** iDeps[p].push_back(c), which makes an empty vector first where there is none. */
  function PushBack(deps: Dependencies, p: nat, c: nat): Dependencies {
    deps[p := (if p in deps then deps[p] else []) + [c]]
  }

  ghost predicate GetsAny(prods: Producers, labels: seq<string>, p: nat) {
    exists l :: l in labels && l in prods && prods[l].id == p
  }

  method AddDependencies(m: Module, prods: Producers, deps: Dependencies) returns (out: Dependencies)
    requires forall l | l in Items(m) :: l in prods
    requires forall p | p in deps :: deps[p] != []
    ensures forall p | p in out :: out[p] != []
    ensures forall p, c :: Has(out, p, c) <==> Has(deps, p, c) || Gets(prods, m, c, p)
  {
    out := AddGetters(m, m.getters, prods, deps);
    ghost var middle := out;
    out := AddGetters(m, m.mightGetters, prods, out);
    forall p: nat, c: nat ensures Has(out, p, c) <==> Has(deps, p, c) || Gets(prods, m, c, p) {
      assert Has(middle, p, c) <==> Has(deps, p, c) || (c == m.id && GetsAny(prods, m.getters, p));
      ItemsGet(prods, m, p);
    }
  }

  lemma ItemsGet(prods: Producers, m: Module, p: nat)
    ensures Gets(prods, m, m.id, p) <==> GetsAny(prods, m.getters, p) || GetsAny(prods, m.mightGetters, p)
  {
    if GetsAny(prods, m.getters, p) {
      var l :| l in m.getters && l in prods && prods[l].id == p;
      assert l in Items(m);
    }
    if GetsAny(prods, m.mightGetters, p) {
      var l :| l in m.mightGetters && l in prods && prods[l].id == p;
      assert l in Items(m);
    }
  }

  /** One of the two loops of addDependencies. */
  method AddGetters(m: Module, labels: seq<string>, prods: Producers, deps: Dependencies) returns (out: Dependencies)
    requires forall l | l in labels :: l in prods
    requires forall p | p in deps :: deps[p] != []
    ensures forall p | p in out :: out[p] != []
    ensures forall p, c :: Has(out, p, c) <==> Has(deps, p, c) || (c == m.id && GetsAny(prods, labels, p))
  {
    out := deps;
    var i := 0;
    while i < |labels|
      invariant i <= |labels|
      invariant forall p | p in out :: out[p] != []
      invariant forall p, c :: Has(out, p, c) <==> Has(deps, p, c) || (c == m.id && GetsAny(prods, labels[..i], p))
    {
      ghost var before := out;
      var q := prods[labels[i]].id;
      out := PushBack(out, q, m.id);
      forall p: nat, c: nat
        ensures Has(out, p, c) <==> Has(deps, p, c) || (c == m.id && GetsAny(prods, labels[..i + 1], p))
      {
        OneLabelMore(prods, labels, i, p);
        assert Has(out, p, c) <==> Has(before, p, c) || (p == q && c == m.id);
      }
      i := i + 1;
    }
    assert labels[..i] == labels;
  }

  /** What the entries say about a pair of numbers. */
  predicate Has(deps: Dependencies, p: nat, c: nat) {
    p in deps && c in deps[p]
  }

  lemma OneLabelMore(prods: Producers, labels: seq<string>, i: nat, p: nat)
    requires i < |labels| && labels[i] in prods
    ensures GetsAny(prods, labels[..i + 1], p) <==> GetsAny(prods, labels[..i], p) || p == prods[labels[i]].id
  {
    assert labels[..i + 1] == labels[..i] + [labels[i]];
    if GetsAny(prods, labels[..i], p) {
      var l :| l in labels[..i] && l in prods && prods[l].id == p;
      assert l in labels[..i + 1];
    }
    assert labels[i] in labels[..i + 1];
  }

  // ---------- what can be asked for ----------

  /** The labels of all that is got, directly or not, by asking for this one. */
  ghost function Reach(prods: Producers, rank: nat -> nat, top: nat, l: string): set<string>
    requires Acyclic(prods, rank, top) && l in prods
    decreases rank(prods[l].id), 1, 0
  {
    {l} + ReachAll(prods, rank, top, Items(prods[l]), rank(prods[l].id))
  }

  ghost predicate Below(prods: Producers, rank: nat -> nat, labels: seq<string>, r: nat) {
    forall l | l in labels :: l in prods && rank(prods[l].id) < r
  }

  ghost function ReachAll(prods: Producers, rank: nat -> nat, top: nat, labels: seq<string>, r: nat): set<string>
    requires Acyclic(prods, rank, top) && Below(prods, rank, labels, r)
    decreases r, 0, |labels|
  {
    if labels == [] then {}
    else
      var n := |labels| - 1;
      ReachAll(prods, rank, top, labels[..n], r) + Reach(prods, rank, top, labels[n])
  }

  lemma {:induction false} ReachAllHas(prods: Producers, rank: nat -> nat, top: nat, labels: seq<string>, r: nat, x: string)
    requires Acyclic(prods, rank, top) && Below(prods, rank, labels, r)
    ensures x in ReachAll(prods, rank, top, labels, r) <==>
      exists l :: l in labels && x in Reach(prods, rank, top, l)
    decreases |labels|
  {
    if labels != [] {
      var n := |labels| - 1;
      ReachAllHas(prods, rank, top, labels[..n], r, x);
      assert labels == labels[..n] + [labels[n]];
    }
  }

  /** Reaching goes on: what is reached from something reached is reached. */
  lemma {:induction false} ReachOn(prods: Producers, rank: nat -> nat, top: nat, l: string, x: string, y: string)
    requires Acyclic(prods, rank, top) && l in prods && x in Reach(prods, rank, top, l) && x in prods
    requires y in Reach(prods, rank, top, x)
    ensures y in Reach(prods, rank, top, l)
    decreases rank(prods[l].id)
  {
    if x != l {
      var items, r := Items(prods[l]), rank(prods[l].id);
      ReachAllHas(prods, rank, top, items, r, x);
      var k :| k in items && x in Reach(prods, rank, top, k);
      ReachOn(prods, rank, top, k, x, y);
      ReachAllHas(prods, rank, top, items, r, y);
    }
  }

  /** A chain of getters from one label to another. */
  ghost predicate GetterChain(prods: Producers, from: string, to: string, chain: seq<string>) {
    && chain != [] && chain[0] == from && chain[|chain| - 1] == to
    && forall i, j | 0 <= i && j == i + 1 && j < |chain| :: Asks(prods, chain[i], chain[j])
  }

  predicate Asks(prods: Producers, k: string, l: string) {
    k in prods && l in Items(prods[k])
  }

  /** Reached is what a chain of getters leads to. */
  lemma {:induction false} ReachIsChains(prods: Producers, rank: nat -> nat, top: nat, l: string, x: string)
    requires Acyclic(prods, rank, top) && l in prods
    ensures x in Reach(prods, rank, top, l) <==> exists chain :: GetterChain(prods, l, x, chain)
    decreases rank(prods[l].id)
  {
    var items, r := Items(prods[l]), rank(prods[l].id);
    ReachAllHas(prods, rank, top, items, r, x);
    if x == l {
      assert GetterChain(prods, l, x, [l]);
    } else if x in Reach(prods, rank, top, l) {
      var k :| k in items && x in Reach(prods, rank, top, k);
      ReachIsChains(prods, rank, top, k, x);
      var chain :| GetterChain(prods, k, x, chain);
      OnTop(prods, l, k, x, chain);
    }
    if chain :| GetterChain(prods, l, x, chain) {
      if |chain| > 1 {
        OneDown(prods, l, x, chain);
        ReachIsChains(prods, rank, top, chain[1], x);
      }
    }
  }

  lemma OnTop(prods: Producers, l: string, k: string, x: string, chain: seq<string>)
    requires Asks(prods, l, k) && GetterChain(prods, k, x, chain)
    ensures GetterChain(prods, l, x, [l] + chain)
  {
    var longer := [l] + chain;
    forall i, j | 0 <= i && j == i + 1 && j < |longer| ensures Asks(prods, longer[i], longer[j]) {
      if i > 0 {
        assert longer[i] == chain[i - 1] && longer[j] == chain[j - 1];
      }
    }
  }

  lemma OneDown(prods: Producers, l: string, x: string, chain: seq<string>)
    requires GetterChain(prods, l, x, chain) && |chain| > 1
    ensures Asks(prods, l, chain[1]) && GetterChain(prods, chain[1], x, chain[1..])
  {
    var rest := chain[1..];
    assert Asks(prods, chain[0], chain[1]);
    forall i, j | 0 <= i && j == i + 1 && j < |rest| ensures Asks(prods, rest[i], rest[j]) {
      assert rest[i] == chain[i + 1] && rest[j] == chain[j + 1];
    }
  }

  // ---------- the search with its accumulator ----------

  /** What the search looks for: a module with items of its own that is not prefetched and
      has another way up to a module that nobody consumes. */
  ghost predicate Selected(prods: Producers, already: set<nat>, deps: Dependencies, start: nat, l: string) {
    && l in prods && Items(prods[l]) != []
    && prods[l].id !in already && Alternate(deps, start, prods[l].id)
  }

  ghost function Picked(prods: Producers, already: set<nat>, deps: Dependencies, start: nat, labels: set<string>): set<nat> {
    set l | l in labels && Selected(prods, already, deps, start, l) :: prods[l].id
  }

  /** The search has been through everything that the modules it found get, as far as they
      are below this rank: the others may still be in progress. */
  ghost predicate Searched(prods: Producers, already: set<nat>, deps: Dependencies, start: nat,
                           rank: nat -> nat, top: nat, found: set<nat>, r: nat)
    requires Acyclic(prods, rank, top)
  {
    forall l | l in prods && rank(prods[l].id) < r && prods[l].id in found ::
      Picked(prods, already, deps, start, Reach(prods, rank, top, l)) <= found
  }

  /** A finished part of the search leaves no work behind. */
  lemma StillSearched(prods: Producers, already: set<nat>, deps: Dependencies, start: nat,
                      rank: nat -> nat, top: nat, found: set<nat>, r: nat, l: string)
    requires Acyclic(prods, rank, top) && l in prods
    requires Searched(prods, already, deps, start, rank, top, found, r)
    ensures Searched(prods, already, deps, start, rank, top,
                     found + Picked(prods, already, deps, start, Reach(prods, rank, top, l)), r)
  {
    var more := Picked(prods, already, deps, start, Reach(prods, rank, top, l));
    forall k | k in prods && rank(prods[k].id) < r && prods[k].id in found + more
      ensures Picked(prods, already, deps, start, Reach(prods, rank, top, k)) <= found + more
    {
      if prods[k].id in more {
        assert k in Reach(prods, rank, top, l);
        forall x | x in Reach(prods, rank, top, k) ensures x in Reach(prods, rank, top, l) {
          ReachOn(prods, rank, top, l, k, x);
        }
      }
    }
  }

  lemma PickedBoth(prods: Producers, already: set<nat>, deps: Dependencies, start: nat, x: set<string>, y: set<string>)
    ensures Picked(prods, already, deps, start, x + y)
         == Picked(prods, already, deps, start, x) + Picked(prods, already, deps, start, y)
  {
  }

  /** The module being searched may be noted first: it counts as in progress. */
  lemma NotedSearched(prods: Producers, already: set<nat>, deps: Dependencies, start: nat,
                      rank: nat -> nat, top: nat, found: set<nat>, l: string)
    requires Acyclic(prods, rank, top) && l in prods
    requires Searched(prods, already, deps, start, rank, top, found, rank(prods[l].id) + 1)
    ensures Searched(prods, already, deps, start, rank, top, found, rank(prods[l].id))
    ensures Searched(prods, already, deps, start, rank, top, found + {prods[l].id}, rank(prods[l].id))
  {
  }

  /** What is found from a label on is its own module, if selected, and what is found from
      its items on. */
  lemma PickedFrom(prods: Producers, already: set<nat>, deps: Dependencies, start: nat,
                   rank: nat -> nat, top: nat, l: string)
    requires Acyclic(prods, rank, top) && l in prods
    ensures Picked(prods, already, deps, start, Reach(prods, rank, top, l))
         == (if Selected(prods, already, deps, start, l) then {prods[l].id} else {})
          + Picked(prods, already, deps, start, ReachAll(prods, rank, top, Items(prods[l]), rank(prods[l].id)))
  {
  }

  /** recursivelyCheckGetItems for the producer with this label: adds exactly what is to be
      found from it on, although it turns back where it has been before. */
  method RecursivelyCheckGetItems(start: nat, l: string, prods: Producers, already: set<nat>, deps: Dependencies,
                                  toCheck: set<nat>, ghost rank: nat -> nat, ghost top: nat)
    returns (out: set<nat>)
    requires Acyclic(prods, rank, top) && l in prods && Rising(deps, rank, top)
    requires Searched(prods, already, deps, start, rank, top, toCheck, rank(prods[l].id) + 1)
    ensures out == toCheck + Picked(prods, already, deps, start, Reach(prods, rank, top, l))
    decreases rank(prods[l].id), 1, 0
  {
    var m := prods[l];
    PickedFrom(prods, already, deps, start, rank, top, l);
    if m.mightGetters == [] && m.getters == [] {
      return toCheck;
    }
    if m.id in toCheck {
      return toCheck;
    }
    out := toCheck;
    if m.id !in already {
      var alternate := AlternateDependencyPaths(start, m.id, deps, rank, top);
      if alternate {
        out := out + {m.id};
      }
    }
    NotedSearched(prods, already, deps, start, rank, top, toCheck, l);
    out := CheckItems(start, Items(m), prods, already, deps, out, rank, top, rank(m.id));
  }

  /** The loops over the getters. */
  method CheckItems(start: nat, items: seq<string>, prods: Producers, already: set<nat>, deps: Dependencies,
                    toCheck: set<nat>, ghost rank: nat -> nat, ghost top: nat, ghost r: nat)
    returns (out: set<nat>)
    requires Acyclic(prods, rank, top) && Below(prods, rank, items, r) && Rising(deps, rank, top)
    requires Searched(prods, already, deps, start, rank, top, toCheck, r)
    ensures out == toCheck + Picked(prods, already, deps, start, ReachAll(prods, rank, top, items, r))
    decreases r, 0, 0
  {
    out := toCheck;
    var i := 0;
    while i < |items|
      invariant i <= |items|
      invariant out == toCheck + Picked(prods, already, deps, start, ReachAll(prods, rank, top, items[..i], r))
      invariant Searched(prods, already, deps, start, rank, top, out, r)
    {
      var l := items[i];
      StillSearched(prods, already, deps, start, rank, top, out, r, l);
      out := RecursivelyCheckGetItems(start, l, prods, already, deps, out, rank, top);
      assert items[..i + 1][..i] == items[..i];
      PickedBoth(prods, already, deps, start, ReachAll(prods, rank, top, items[..i], r), Reach(prods, rank, top, l));
      i := i + 1;
    }
    assert items[..i] == items;
  }

  ghost function Numbers(prods: Producers, labels: seq<string>): set<nat> {
    set l | l in labels && l in prods :: prods[l].id
  }

  /** recursivelyCheckPrefetchItems. A prefetched producer is noted before the search goes on
      to it, which therefore turns back at once: only the direct ones are found. */
  method RecursivelyCheckPrefetchItems(m: Module, prods: Producers, deps: set<nat>, ghost rank: nat -> nat, ghost top: nat)
    returns (out: set<nat>)
    requires Acyclic(prods, rank, top) && Placed(prods, rank, top, m)
    ensures out == if m.id in deps then deps else deps + Numbers(prods, m.getters)
    decreases rank(m.id)
  {
    if m.id in deps {
      return deps;
    }
    out := deps;
    var i := 0;
    while i < |m.getters|
      invariant i <= |m.getters|
      invariant out == deps + Numbers(prods, m.getters[..i])
    {
      var l := m.getters[i];
      assert l in Items(m);
      var p := prods[l];
      out := out + {p.id};
      out := RecursivelyCheckPrefetchItems(p, prods, out, rank, top);
      assert m.getters[..i + 1] == m.getters[..i] + [l];
      i := i + 1;
    }
    assert m.getters[..i] == m.getters;
  }

  /** The elements of a std::set in its order. */
  method Sorted(s: set<nat>) returns (v: seq<nat>)
    ensures Ascending(v) && (forall x: nat :: x in v <==> x in s)
  {
    v := [];
    var rest := s;
    while rest != {}
      invariant rest <= s && Ascending(v)
      invariant forall x: nat :: x in v <==> x in s && x !in rest
      invariant forall x, y | x in v && y in rest :: x < y
      decreases |rest|
    {
      var least := Least(rest);
      assert forall x | x in v :: x < least;
      forall k | 0 <= k < |v| ensures v[k] < least {
        assert v[k] in v;
      }
      v := v + [least];
      rest := rest - {least};
    }
  }

  method Least(s: set<nat>) returns (least: nat)
    requires s != {}
    ensures least in s && forall x | x in s :: least <= x
  {
    least :| least in s;
    var rest := s - {least};
    while rest != {}
      invariant rest <= s && least in s
      invariant forall x | x in s && x !in rest :: least <= x
      decreases |rest|
    {
      var x :| x in rest;
      if x < least {
        least := x;
      }
      rest := rest - {x};
    }
  }

  // ---------- the result ----------

  /** Exactly what has to be asked for early by module m: a producer that something it might
      get is or gets, directly or not, that has items of its own, that m does not prefetch,
      and that has a chain of consumers to one that nobody consumes without passing m. */
  ghost predicate MustAsk(prods: Producers, filters: seq<Module>, m: Module, id: nat) {
    exists l ::
      && l in prods && prods[l].id == id && Items(prods[l]) != []
      && id !in Numbers(prods, m.getters)
      && Got(prods, m, l)
      && exists chain :: ConsumerChain(prods, filters, m.id, id, chain)
  }

  ghost predicate Got(prods: Producers, m: Module, l: string) {
    exists k, chain :: k in m.mightGetters && GetterChain(prods, k, l, chain)
  }

  ghost predicate Answered(prods: Producers, filters: seq<Module>, m: Module)
    reads m
  {
    && Ascending(m.dependentModulesToCheck)
    && forall id: nat :: id in m.dependentModulesToCheck <==> MustAsk(prods, filters, m, id)
  }

  lemma ResultIs(prods: Producers, filters: seq<Module>, deps: Dependencies, rank: nat -> nat, top: nat, m: Module, id: nat)
    requires Acyclic(prods, rank, top) && Placed(prods, rank, top, m) && Inverse(deps, prods, filters)
    requires Below(prods, rank, m.mightGetters, rank(m.id))
    ensures id in Picked(prods, Numbers(prods, m.getters), deps, m.id,
                         ReachAll(prods, rank, top, m.mightGetters, rank(m.id)))
      <==> MustAsk(prods, filters, m, id)
  {
    forall l ensures l in ReachAll(prods, rank, top, m.mightGetters, rank(m.id)) <==> Got(prods, m, l) {
      GotIs(prods, rank, top, m, l);
    }
    AlternateIs(prods, filters, deps, m.id, id);
  }

  lemma GotIs(prods: Producers, rank: nat -> nat, top: nat, m: Module, l: string)
    requires Acyclic(prods, rank, top) && Below(prods, rank, m.mightGetters, rank(m.id))
    ensures l in ReachAll(prods, rank, top, m.mightGetters, rank(m.id)) <==> Got(prods, m, l)
  {
    ReachAllHas(prods, rank, top, m.mightGetters, rank(m.id), l);
    forall k | k in m.mightGetters
      ensures l in Reach(prods, rank, top, k) <==> exists chain :: GetterChain(prods, k, l, chain)
    {
      ReachIsChains(prods, rank, top, k, l);
    }
  }

  lemma AlternateIs(prods: Producers, filters: seq<Module>, deps: Dependencies, parent: nat, child: nat)
    requires Inverse(deps, prods, filters)
    ensures Alternate(deps, parent, child) <==> exists chain :: ConsumerChain(prods, filters, parent, child, chain)
  {
    forall chain ensures Chain(deps, parent, child, chain) <==> ConsumerChain(prods, filters, parent, child, chain) {
      ChainsAgree(deps, prods, filters, parent, child, chain);
    }
  }

  /** correctPossibleDeadlocks. */
  method CorrectPossibleDeadlocks(m: Module, prods: Producers, deps: Dependencies,
                                  ghost filters: seq<Module>, ghost rank: nat -> nat, ghost top: nat)
    requires Acyclic(prods, rank, top) && Placed(prods, rank, top, m)
    requires Rising(deps, rank, top) && Inverse(deps, prods, filters)
    modifies m
    ensures Answered(prods, filters, m)
  {
    var already := RecursivelyCheckPrefetchItems(m, prods, {}, rank, top);
    assert forall l | l in m.mightGetters :: l in Items(m);
    var toCheck := CheckItems(m.id, m.mightGetters, prods, already, deps, {}, rank, top, rank(m.id));
    forall id: nat ensures id in toCheck <==> MustAsk(prods, filters, m, id) {
      ResultIs(prods, filters, deps, rank, top, m, id);
    }
    var ids := Sorted(toCheck);
    m.dependentModulesToCheck := ids;
  }

  class EventProcessor {
    var producers: Producers
    var filters: seq<Module>

    constructor (producers: Producers, filters: seq<Module>)
      ensures this.producers == producers && this.filters == filters
    {
      this.producers, this.filters := producers, filters;
    }

    /** The job given to finishSetup: acyclic, everything got is there. */
    ghost predicate Ready(rank: nat -> nat, top: nat)
      reads this
    {
      && Acyclic(producers, rank, top)
      && forall k | 0 <= k < |filters| :: Placed(producers, rank, top, filters[k])
    }

    method FilterDependencies(ghost rank: nat -> nat, ghost top: nat) returns (deps: Dependencies)
      requires Ready(rank, top)
      ensures forall p | p in deps :: deps[p] != []
      ensures forall p, c :: Has(deps, p, c) <==> FilterConsumes(producers, filters, c, p)
    {
      deps := map[];
      var i := 0;
      while i < |filters|
        invariant i <= |filters|
        invariant forall p | p in deps :: deps[p] != []
        invariant forall p, c :: Has(deps, p, c) <==> FilterConsumes(producers, filters[..i], c, p)
      {
        deps := AddDependencies(filters[i], producers, deps);
        assert filters[..i + 1] == filters[..i] + [filters[i]];
        i := i + 1;
      }
      assert filters[..i] == filters;
    }

    /** The loops over addDependencies, first for the filters, then for the producers. */
    method BuildDependencies(ghost rank: nat -> nat, ghost top: nat) returns (deps: Dependencies)
      requires Ready(rank, top)
      ensures Inverse(deps, producers, filters) && Rising(deps, rank, top)
    {
      deps := FilterDependencies(rank, top);
      var labels := producers.Keys;
      while labels != {}
        invariant labels <= producers.Keys
        invariant forall p | p in deps :: deps[p] != []
        invariant forall p, c :: Has(deps, p, c) <==>
          FilterConsumes(producers, filters, c, p) || ProducerConsumes(producers, labels, c, p)
        decreases |labels|
      {
        var l :| l in labels;
        deps := AddDependencies(producers[l], producers, deps);
        labels := labels - {l};
      }
      forall p, c | p in deps && c in deps[p] ensures rank(p) < rank(c) <= top {
        assert Has(deps, p, c);
      }
    }

    /** finishSetup: afterwards every module knows exactly what it must ask for early. */
    method FinishSetup(ghost rank: nat -> nat, ghost top: nat)
      requires Ready(rank, top)
      modifies this, filters, producers.Values
      ensures filters == [] && producers == map[]
      ensures forall m | m in old(filters) || m in old(producers).Values :: Answered(old(producers), old(filters), m)
    {
      var deps := BuildDependencies(rank, top);
      var i := 0;
      while i < |filters|
        invariant i <= |filters| && filters == old(filters) && producers == old(producers)
        invariant forall k | 0 <= k < i :: Answered(producers, filters, filters[k])
      {
        CorrectPossibleDeadlocks(filters[i], producers, deps, filters, rank, top);
        i := i + 1;
      }
      var labels := producers.Keys;
      while labels != {}
        invariant labels <= producers.Keys && filters == old(filters) && producers == old(producers)
        invariant forall k | 0 <= k < |filters| :: Answered(producers, filters, filters[k])
        invariant forall l | l in producers && l !in labels :: Answered(producers, filters, producers[l])
        decreases |labels|
      {
        var l :| l in labels;
        CorrectPossibleDeadlocks(producers[l], producers, deps, filters, rank, top);
        labels := labels - {l};
      }
      filters := [];
      producers := map[];
    }
  }
}
