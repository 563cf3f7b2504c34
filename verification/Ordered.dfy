/** Lowest members and sizes of sets of numbers. */
module Ordered {
  predicate IsLowest(keys: set<nat>, k: nat) {
    k in keys && forall other :: other in keys ==> k <= other
  }

  ghost function Lowest(keys: set<nat>): (k: nat)
    requires keys != {}
    ensures IsLowest(keys, k)
  {
    NonEmptyHasLowest(keys);
    var k :| IsLowest(keys, k);
    k
  }

  lemma NonEmptyHasLowest(keys: set<nat>)
    requires keys != {}
    ensures exists k :: IsLowest(keys, k)
  {
    var x :| x in keys;
    LowestExists(keys, x);
  }

  lemma {:induction false} LowestExists(keys: set<nat>, x: nat)
    requires x in keys
    ensures exists k :: IsLowest(keys, k)
    decreases x
  {
    if !IsLowest(keys, x) {
      var y :| y in keys && y < x;
      LowestExists(keys, y);
    }
  }

  lemma {:induction false} SubsetIsSmaller<T>(a: set<T>, b: set<T>)
    requires a <= b
    ensures |a| <= |b|
    ensures a != b ==> |a| < |b|
  {
    if a != {} {
      var x :| x in a;
      SubsetIsSmaller(a - {x}, b - {x});
      assert a - {x} == b - {x} ==> a == b;
    }
  }
}
