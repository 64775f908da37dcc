// Shared vocabulary.

module Base {
  datatype Option<T> = None | Some(value: T)

  ghost function Upto(n: nat): (S: set<int>)
    ensures |S| == n && forall v :: v in S <==> 0 <= v < n
  {
    if n == 0 then {} else Upto(n - 1) + {n - 1}
  }

  lemma SubsetSize<T>(A: set<T>, B: set<T>)
    requires A <= B
    ensures |A| <= |B|
  {
    assert B == A + (B - A);
  }

  lemma SubsetFull<T>(A: set<T>, B: set<T>)
    requires A <= B && |A| >= |B|
    ensures A == B
  {
    assert B == A + (B - A);
    assert |B - A| == 0;
  }

  lemma {:induction false} InjectionBound<T, U>(A: set<T>, B: set<U>, f: T -> U)
    requires forall x :: x in A ==> f(x) in B
    requires forall x, y :: x in A && y in A && x != y ==> f(x) != f(y)
    ensures |A| <= |B|
  {
    if A != {} {
      var x :| x in A;
      InjectionBound(A - {x}, B - {f(x)}, f);
      assert |A - {x}| == |A| - 1 && |B - {f(x)}| == |B| - 1;
    }
  }
}
