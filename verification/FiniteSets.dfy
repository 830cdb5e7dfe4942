/** Initial segments of the naturals and the sizes of their subsets. */
module FiniteSets {

  /** The numbers 0, ..., n - 1. */
  function Ids(n: nat): (ids: set<nat>)
    ensures forall i: nat :: i in ids <==> i < n
    ensures |ids| == n
  {
    if n == 0 then {} else Ids(n - 1) + {n - 1}
  }

  lemma {:induction false} SubsetSize<T>(a: set<T>, b: set<T>)
    requires a <= b
    ensures |a| <= |b|
  {
    if a != {} {
      var x :| x in a;
      SubsetSize(a - {x}, b - {x});
    }
  }

  /** Two sets of servers that together outnumber the servers share one. */
  lemma Meet(n: nat, a: set<nat>, b: set<nat>) returns (x: nat)
    requires (forall i :: i in a ==> i < n) && (forall i :: i in b ==> i < n)
    requires |a| + |b| > n
    ensures x in a && x in b
  {
    if a * b == {} {
      assert forall i :: i in a && i in b ==> i in a * b;
      assert |a + b| == |a| + |b|;
      SubsetSize(a + b, Ids(n));
      assert false;
    }
    x :| x in a * b;
  }
}
