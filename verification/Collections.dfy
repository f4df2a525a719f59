/** Facts about finite sets and sequences that several modules use. */
module Collections {
  lemma EmptyTogether<T>(a: seq<T>, b: seq<T>)
    requires forall x :: x in a <==> x in b
    ensures a == [] <==> b == []
  {
    if a != [] {
      assert a[0] in a;
    }
    if b != [] {
      assert b[0] in b;
    }
  }

  lemma SingletonIsUnique<T>(ts: set<T>, a: T, b: T)
    requires |ts| == 1 && a in ts && b in ts
    ensures a == b
  {
    var rest := ts - {a};
    assert |rest| == |ts| - 1;
    assert rest == {} && b !in rest;
  }

  lemma SubsetIsSmaller<T>(a: set<T>, b: set<T>)
    requires a <= b
    ensures |a| <= |b|
  {
    assert |b - a| + |a| == |b| by {
      assert (b - a) + a == b && (b - a) !! a;
    }
  }
}
