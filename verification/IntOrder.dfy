/** Walking a std::map by ascending key. */
module IntOrder {
  predicate IsLeast(k: int, keys: set<int>) {
    k in keys && forall other <- keys :: k <= other
  }

  lemma Element(keys: set<int>) returns (k: int)
    requires keys != {}
    ensures k in keys
  {
    assert (forall k :: k !in keys) ==> keys == {};
    k :| k in keys;
  }

  lemma {:induction false} LeastExists(keys: set<int>)
    requires keys != {}
    ensures exists k :: IsLeast(k, keys)
  {
    var k := Element(keys);
    if keys == {k} {
      assert IsLeast(k, keys);
    } else {
      LeastExists(keys - {k});
      var least :| IsLeast(least, keys - {k});
      assert keys == (keys - {k}) + {k};
      assert IsLeast(if k < least then k else least, keys);
    }
  }

  ghost function Ascending(keys: set<int>): seq<int> {
    if keys == {} then []
    else
      LeastExists(keys);
      var k :| IsLeast(k, keys);
      [k] + Ascending(keys - {k})
  }

  lemma AscendingUnfolds(keys: set<int>, k: int)
    requires IsLeast(k, keys)
    ensures Ascending(keys) == [k] + Ascending(keys - {k})
  {
    assert IsLeast(Ascending(keys)[0], keys);
  }

  /** Every key once, smallest first. */
  lemma {:induction false} AscendingIsSorted(keys: set<int>)
    ensures forall i, j :: 0 <= i < j < |Ascending(keys)| ==> Ascending(keys)[i] < Ascending(keys)[j]
    ensures forall k :: k in Ascending(keys) <==> k in keys
  {
    if keys != {} {
      LeastExists(keys);
      var k :| IsLeast(k, keys);
      AscendingUnfolds(keys, k);
      AscendingIsSorted(keys - {k});
      var rest := Ascending(keys - {k});
      assert forall j :: 0 <= j < |rest| ==> rest[j] in rest;
    }
  }
}
