/** The optional value shared by the other modules. */
module Wrappers {
  datatype Option<+T> = None | Some(value: T)
}

/** A fact about the size of sets shared by the other modules. */
module Sets {
  lemma SubsetSize<T>(a: set<T>, b: set<T>)
    requires a <= b
    ensures |a| <= |b|
  {
    assert a + (b - a) == b;
  }
}
