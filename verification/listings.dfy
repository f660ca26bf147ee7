/** Sequences that list the elements of a set. */
module Listings {
  /** A list with as many items as the set it lists has none twice. */
  lemma {:induction false} DistinctIfFull<T>(list: seq<T>, elements: set<T>)
    requires |list| == |elements| && forall x :: x in list <==> x in elements
    ensures forall i, j | 0 <= i < j < |list| :: list[i] != list[j]
  {
    if list != [] {
      var front, last := list[..|list| - 1], list[|list| - 1];
      assert list == front + [last];
      if last in front {
        NoFewer(front, elements);
      } else {
        DistinctIfFull(front, elements - {last});
      }
    }
  }

  lemma {:induction false} NoFewer<T>(list: seq<T>, elements: set<T>)
    requires forall x | x in elements :: x in list
    ensures |elements| <= |list|
  {
    if list == [] {
      assert elements == {};
    } else {
      var front, last := list[..|list| - 1], list[|list| - 1];
      assert list == front + [last];
      NoFewer(front, elements - {last});
    }
  }
}
