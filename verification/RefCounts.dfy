/** std::shared_ptr control blocks: for each live object, how many pointers own it. Owners are counted
    by tallying, over the maps that hold the pointers, how many entries point at an object. */
module RefCounts {
  import opened Options

  function CountOf<K>(refs: map<K, nat>, k: K): nat {
    if k in refs then refs[k] else 0
  }

  /** A destroyed object has no control block. */
  predicate Positive<K>(refs: map<K, nat>) {
    forall k <- refs :: refs[k] > 0
  }

  /** Copying an owning pointer. A pointer to a destroyed object is what the precondition rules out. */
  function Shared<K(!new)>(refs: map<K, nat>, k: K): (r: map<K, nat>)
    requires k in refs
    ensures Positive(refs) ==> Positive(r)
    ensures forall other :: CountOf(r, other) == CountOf(refs, other) + if other == k then 1 else 0
  {
    refs[k := refs[k] + 1]
  }

  /** The first owning pointer to a new object. */
  function Made<K(!new)>(refs: map<K, nat>, k: K): (r: map<K, nat>)
    requires k !in refs
    ensures Positive(refs) ==> Positive(r)
    ensures forall other :: CountOf(r, other) == CountOf(refs, other) + if other == k then 1 else 0
  {
    refs[k := 1]
  }

  /** Giving up an owning pointer; the last one destroys the object. */
  function Dropped<K(!new)>(refs: map<K, nat>, k: K): (r: map<K, nat>)
    requires k in refs && refs[k] > 0
    ensures Positive(refs) ==> Positive(r)
    ensures forall other :: CountOf(r, other) == CountOf(refs, other) - if other == k then 1 else 0
    ensures r.Keys <= refs.Keys
  {
    if refs[k] == 1 then refs - {k} else refs[k := refs[k] - 1]
  }

  // ---------- Tallies ----------

  /** The keys whose value points at `k`. */
  ghost function Pointing<X, Y, K>(m: map<X, Y>, target: Y -> Option<K>, k: K): set<X> {
    set x | x in m && target(m[x]) == Some(k)
  }

  ghost function Tally<X, Y, K>(m: map<X, Y>, target: Y -> Option<K>, k: K): nat {
    |Pointing(m, target, k)|
  }

  lemma TallyHas<X, Y, K>(m: map<X, Y>, target: Y -> Option<K>, x: X, k: K)
    requires x in m && target(m[x]) == Some(k)
    ensures Tally(m, target, k) > 0
  {
    assert x in Pointing(m, target, k);
  }

  lemma TallySome<X, Y, K>(m: map<X, Y>, target: Y -> Option<K>, k: K) returns (x: X)
    requires Tally(m, target, k) > 0
    ensures x in m && target(m[x]) == Some(k)
  {
    assert (forall other :: other !in Pointing(m, target, k)) ==> Pointing(m, target, k) == {};
    x :| x in Pointing(m, target, k);
  }

  lemma TallyNone<X, Y, K>(m: map<X, Y>, target: Y -> Option<K>, k: K)
    requires Tally(m, target, k) == 0
    ensures forall x <- m :: target(m[x]) != Some(k)
  {
    assert Pointing(m, target, k) == {};
    forall x | x in m
      ensures target(m[x]) != Some(k)
    {
      assert x !in Pointing(m, target, k);
    }
  }

  function Points<X, Y, K(==)>(m: map<X, Y>, target: Y -> Option<K>, x: X, k: K): nat {
    if x in m && target(m[x]) == Some(k) then 1 else 0
  }

  lemma TallyWithout<X, Y, K>(m: map<X, Y>, target: Y -> Option<K>, x: X, k: K)
    ensures Tally(m - {x}, target, k) == Tally(m, target, k) - Points(m, target, x, k)
  {
    assert Pointing(m - {x}, target, k) == Pointing(m, target, k) - {x};
  }

  lemma TallySet<X, Y, K>(m: map<X, Y>, target: Y -> Option<K>, x: X, y: Y, k: K)
    ensures Tally(m[x := y], target, k)
         == Tally(m, target, k) - Points(m, target, x, k) + if target(y) == Some(k) then 1 else 0
  {
    TallyWithout(m, target, x, k);
    var rest := Pointing(m - {x}, target, k);
    assert Pointing(m[x := y], target, k) == rest + if target(y) == Some(k) then {x} else {};
  }

  lemma TallySame<X, Y, K>(m: map<X, Y>, m': map<X, Y>, target: Y -> Option<K>, k: K)
    requires m.Keys == m'.Keys && forall x <- m :: target(m[x]) == target(m'[x])
    ensures Tally(m, target, k) == Tally(m', target, k)
  {
    assert Pointing(m, target, k) == Pointing(m', target, k);
  }
}
