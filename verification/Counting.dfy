// Cardinality facts used to turn invariants about individual actors into bounds.
module Counting {

  lemma {:induction false} SubsetBound<X>(A: set<X>, B: set<X>)
    requires A <= B
    ensures |A| <= |B|
    decreases A
  {
    if A != {} {
      var x :| x in A;
      SubsetBound(A - {x}, B - {x});
    }
  }

  // A set that maps injectively into A is no larger than A.
  lemma {:induction false} InjectionBound<X, Y>(A: set<X>, T: set<Y>, into: map<Y, X>)
    requires forall t :: t in T ==> t in into && into[t] in A
    requires forall t, u :: t in T && u in T && into[t] == into[u] ==> t == u
    ensures |T| <= |A|
    decreases T
  {
    if T != {} {
      var t :| t in T;
      InjectionBound(A - {into[t]}, T - {t}, into);
    }
  }

  // The numbers from 1 to n.
  function UpTo(n: nat): (s: set<nat>)
    ensures |s| == n
    ensures forall i :: i in s <==> 1 <= i <= n
  {
    if n == 0 then {} else UpTo(n - 1) + {n}
  }

  // Some number is not in A.
  lemma FreshNumber(A: set<nat>) returns (n: nat)
    ensures n !in A
  {
    if i :| i in UpTo(|A| + 1) && i !in A {
      n := i;
    } else {
      SubsetBound(UpTo(|A| + 1), A);
      assert false;
    }
  }

  lemma MemberMeansNonempty<X>(x: X, A: set<X>)
    requires x in A
    ensures |A| > 0
  {
  }
}
