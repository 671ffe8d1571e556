/** Shared value types, and the sizes of sets. */
module Common {

  datatype Option<+T> = None | Some(value: T) {
    function GetOr(default: T): T {
      if Some? then value else default
    }
  }

  lemma SubsetSize<T>(a: set<T>, b: set<T>)
    requires a <= b
    ensures |a| <= |b|
  {
    assert b == a + (b - a);
  }

  lemma Smaller<T>(a: set<T>, b: set<T>, d: T)
    requires a <= b && d in b && d !in a
    ensures |a| < |b|
  {
    SubsetSize(a, b - {d});
    assert b == (b - {d}) + {d};
  }
}
