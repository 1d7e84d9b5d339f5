/** Sets of elements of a sequence, and equations about sets stated once so that proofs can cite them. */
module Sets {

  lemma UnionAssoc<T>(a: set<T>, b: set<T>, c: set<T>)
    ensures (a + b) + c == a + (b + c)
  {
  }

  lemma UnionEmpty<T>(a: set<T>)
    ensures {} + a == a && a + {} == a
  {
  }

  lemma UnionAssoc4<T>(a: set<T>, b: set<T>, c: set<T>, d: set<T>)
    ensures a + b + c + d == a + ((b + c) + d)
  {
  }

  lemma UnionInterleave<T>(s: set<T>, a: set<T>, b: set<T>, moreA: set<T>, moreB: set<T>)
    ensures s + a + b + moreA + moreB == s + (a + moreA) + (b + moreB)
  {
  }

  ghost function Elements<T>(a: seq<T>): set<T> {
    set x | x in a
  }

  lemma ElementsMore<T>(a: seq<T>, n: nat)
    requires n < |a|
    ensures Elements(a[..n + 1]) == Elements(a[..n]) + {a[n]}
  {
    assert a[..n + 1] == a[..n] + [a[n]];
  }

  lemma ElementsOfNone<T>(a: seq<T>)
    ensures Elements(a[..0]) == {} && a[..|a|] == a
  {
  }

  /** A set in some order: what ranging over a Go map does. */
  method Enumerate<T(==)>(s: set<T>) returns (order: seq<T>)
    ensures Elements(order) == s
  {
    order := [];
    var todo := s;
    while todo != {}
      invariant forall y :: y in s <==> y in order || y in todo
      decreases |todo|
    {
      var x :| x in todo;
      todo := todo - {x};
      order := order + [x];
    }
  }
}
