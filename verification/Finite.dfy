/** Small facts about numbers and finite sets. */
module Finite {
  function Min(a: nat, b: nat): nat { if a <= b then a else b }

  function Larger(a: int, b: nat): nat { if a > b then a else b }

  lemma {:induction false} SubsetCount<T>(a: set<T>, b: set<T>)
    requires a <= b
    ensures |a| <= |b|
  {
    if a != {} {
      var x :| x in a;
      SubsetCount(a - {x}, b - {x});
    }
  }
}
