// Small definitions shared by the component models.

module Basics {

  datatype Option<+T> = None | Some(value: T)

  /** An exception. The scheduler names it by the module whose own code threw it. */
  type Exc = nat

  /** Keeps the first recorded value: what a compare-exchange from null does. */
  function FirstOf<T>(recorded: Option<T>, offered: Option<T>): Option<T> {
    if recorded.Some? then recorded else offered
  }

  /** The sum of all values of a map. */
  ghost function Total(m: map<nat, nat>): nat
    decreases |m|
  {
    if m == map[] then 0
    else
      var k :| k in m;
      m[k] + Total(m - {k})
  }

  /** The sum does not depend on the order in which the keys are taken. */
  lemma {:induction false} TotalRemove(m: map<nat, nat>, k: nat)
    requires k in m
    ensures Total(m) == m[k] + Total(m - {k})
    decreases |m|
  {
    var c :| c in m && Total(m) == m[c] + Total(m - {c});
    if c != k {
      TotalRemove(m - {c}, k);
      TotalRemove(m - {k}, c);
      assert m - {c} - {k} == m - {k} - {c};
    }
  }

  lemma TotalUpdate(m: map<nat, nat>, k: nat, v: nat)
    ensures k in m ==> Total(m[k := v]) == Total(m) - m[k] + v
    ensures k !in m ==> Total(m[k := v]) == Total(m) + v
  {
    var n := m[k := v];
    TotalRemove(n, k);
    assert n - {k} == m - {k};
    if k in m {
      TotalRemove(m, k);
    } else {
      assert m - {k} == m;
    }
  }

  /** Two keys change (or one, twice) and together get smaller. */
  lemma TotalFalls(m: map<nat, nat>, i: nat, x: nat, j: nat, y: nat)
    requires i in m && j in m && (if i == j then y < m[j] else x + y < m[i] + m[j])
    ensures Total(m[i := x][j := y]) < Total(m)
  {
    TotalUpdate(m, i, x);
    TotalUpdate(m[i := x], j, y);
  }

  /** The sum of a sequence, and how it changes with one element. */
  function Sum(s: seq<nat>): nat {
    if s == [] then 0 else s[0] + Sum(s[1..])
  }

  lemma {:induction false} SumUpdate(s: seq<nat>, i: nat, v: nat)
    requires i < |s|
    ensures Sum(s[i := v]) == Sum(s) - s[i] + v
  {
    if i == 0 {
      assert s[i := v][1..] == s[1..];
    } else {
      SumUpdate(s[1..], i - 1, v);
      assert s[i := v][1..] == s[1..][i - 1 := v];
    }
  }

  /** There is always a number that is not in use. */
  lemma {:induction false} NewNumber(used: set<nat>) returns (a: nat)
    ensures a !in used
    decreases |used|
  {
    if used == {} {
      a := 0;
    } else {
      var m := Greatest(used);
      a := m + 1;
    }
  }

  lemma {:induction false} Greatest(xs: set<nat>) returns (m: nat)
    requires xs != {}
    ensures m in xs && forall x | x in xs :: x <= m
    decreases |xs|
  {
    m :| m in xs;
    var rest := xs - {m};
    if rest != {} {
      var y := Greatest(rest);
      assert forall x | x in xs :: x == m || x in rest;
      if y > m { m := y; }
    } else {
      assert forall x | x in xs :: x == m || x in rest;
    }
  }

  lemma ThreeOf<T>(xs: set<T>) returns (u: T, v: T, w: T)
    requires |xs| > 2
    ensures u in xs && v in xs && w in xs && u != v && v != w && u != w
  {
    u :| u in xs;
    assert |xs - {u}| > 1;
    v :| v in xs - {u};
    assert |xs - {u} - {v}| > 0;
    w :| w in xs - {u} - {v};
  }
}
