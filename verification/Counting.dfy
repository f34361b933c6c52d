/**
  Counting the goroutines that sit in a given phase.
  A table maps each goroutine to its phase; `Count` is the number of entries whose phase
  satisfies a predicate, and `CountUpdate` says how one move changes that number.
 */
module Counting {

  function Sel<P>(m: map<nat, P>, p: P -> bool): set<nat> {
    set t | t in m && p(m[t])
  }

  function Count<P>(m: map<nat, P>, p: P -> bool): nat {
    |Sel(m, p)|
  }

  function Bit(b: bool): nat {
    if b then 1 else 0
  }

  lemma CountUpdate<P>(m: map<nat, P>, k: nat, v: P, p: P -> bool)
    ensures Count(m[k := v], p) == Count(m, p) - Bit(k in m && p(m[k])) + Bit(p(v))
  {
    SelUpdate(m, k, v, p);
    var selected, rest := Sel(m, p), Sel(m, p) - {k};
    assert k in selected <==> k in m && p(m[k]);
    hide Sel;
    WithoutOne(selected, k);
    assert |rest + {k}| == |rest| + 1;
  }

  lemma SelUpdate<P>(m: map<nat, P>, k: nat, v: P, p: P -> bool)
    ensures Sel(m[k := v], p) == Sel(m, p) - {k} + if p(v) then {k} else {}
  {}

  lemma WithoutOne(s: set<nat>, k: nat)
    ensures |s - {k}| == |s| - Bit(k in s)
  {
    if k in s {
      assert s == (s - {k}) + {k};
    } else {
      assert s == s - {k};
    }
  }

  lemma CountPositive<P>(m: map<nat, P>, k: nat, p: P -> bool)
    requires k in m && p(m[k])
    ensures Count(m, p) > 0
  {
    assert k in Sel(m, p);
  }

  lemma CountWitness<P>(m: map<nat, P>, p: P -> bool) returns (k: nat)
    requires Count(m, p) > 0
    ensures k in m && p(m[k])
  {
    k :| k in Sel(m, p);
  }

  /** A weaker predicate selects at least as many entries. */
  lemma CountMonotone<P>(m: map<nat, P>, p: P -> bool, q: P -> bool)
    requires forall t | t in m && p(m[t]) :: q(m[t])
    ensures Count(m, p) <= Count(m, q)
  {
    SubsetCardinality(Sel(m, p), Sel(m, q));
  }

  lemma SubsetCardinality(a: set<nat>, b: set<nat>)
    requires a <= b
    ensures |a| <= |b|
  {
    assert b == a + (b - a);
  }

  /** Two predicates that never hold together and cover exactly a third one add up to it. */
  lemma CountSplit<P>(m: map<nat, P>, p: P -> bool, q: P -> bool, r: P -> bool)
    requires forall t | t in m :: r(m[t]) == (p(m[t]) || q(m[t])) && !(p(m[t]) && q(m[t]))
    ensures Count(m, r) == Count(m, p) + Count(m, q)
  {
    assert Sel(m, r) == Sel(m, p) + Sel(m, q);
    assert Sel(m, p) !! Sel(m, q);
  }
}
