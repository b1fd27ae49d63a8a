/** The documented examples and unit tests of `BiAltern`, as regression
    fixtures.  A nested `BiAltern` is a producer whose remaining elements are
    its `Remaining()`, because `Next` and `NextBack` take the first and last
    element of it; so a nested interleaver is a nested `Interleave`. */
module BiAlternExamples {
  import opened Wrappers
  import opened BiAltern

  /** `[1, 3, 5, 6]` with `[2, 4]` gives `[1, 2, 3, 4, 5, 6]`. */
  lemma ForwardOrder()
    ensures Interleave([1, 3, 5, 6], [2, 4], true) == [1, 2, 3, 4, 5, 6]
  {
    InterleaveBothCons([1, 3, 5, 6], [2, 4]);
    InterleaveBothCons([3, 5, 6], [4]);
    InterleaveOneLeft([5, 6], [], true);
  }

  /** Three producers nested as `BiAltern(BiAltern(A, B), C)`: the outer
      level alternates between the pair and `C`, not among the three. */
  lemma NestedThree()
    ensures var inner := Interleave([1, 1, 1, 1], [2, 2], true);
      Interleave(inner, [3, 3, 3], true) == [1, 3, 2, 3, 1, 3, 2, 1, 1] &&
      Interleave(inner, [3, 3, 3], true) != [1, 2, 3, 1, 2, 3, 1, 3, 1]
  {
    InterleaveBothCons([1, 1, 1, 1], [2, 2]);
    InterleaveBothCons([1, 1, 1], [2]);
    InterleaveOneLeft([1, 1], [], true);
    assert Interleave([1, 1, 1, 1], [2, 2], true) == [1, 2, 1, 2, 1, 1];
    InterleaveBothCons([1, 2, 1, 2, 1, 1], [3, 3, 3]);
    InterleaveBothCons([2, 1, 2, 1, 1], [3, 3]);
    InterleaveBothCons([1, 2, 1, 1], [3]);
    InterleaveOneLeft([2, 1, 1], [], true);
  }

  /** Four producers paired as `(A, B)` and `(C, D)` are visited A, C, B, D. */
  lemma NestedFourAdjacentPairs()
    ensures Interleave(Interleave([1, 1], [2, 2], true), Interleave([3, 3], [4, 4], true), true)
         == [1, 3, 2, 4, 1, 3, 2, 4]
  {
    InterleaveBothCons([1, 1], [2, 2]);
    InterleaveBothCons([1], [2]);
    assert Interleave([1, 1], [2, 2], true) == [1, 2, 1, 2];
    InterleaveBothCons([3, 3], [4, 4]);
    InterleaveBothCons([3], [4]);
    assert Interleave([3, 3], [4, 4], true) == [3, 4, 3, 4];
    InterleaveBothCons([1, 2, 1, 2], [3, 4, 3, 4]);
    InterleaveBothCons([2, 1, 2], [4, 3, 4]);
    InterleaveBothCons([1, 2], [3, 4]);
    InterleaveBothCons([2], [4]);
  }

  /** Paired as `(A, C)` and `(B, D)` they are visited A, B, C, D. */
  lemma NestedFourCrossedPairs()
    ensures Interleave(Interleave([1, 1], [3, 3], true), Interleave([2, 2], [4, 4], true), true)
         == [1, 2, 3, 4, 1, 2, 3, 4]
  {
    InterleaveBothCons([1, 1], [3, 3]);
    InterleaveBothCons([1], [3]);
    assert Interleave([1, 1], [3, 3], true) == [1, 3, 1, 3];
    InterleaveBothCons([2, 2], [4, 4]);
    InterleaveBothCons([2], [4]);
    assert Interleave([2, 2], [4, 4], true) == [2, 4, 2, 4];
    InterleaveBothCons([1, 3, 1, 3], [2, 4, 2, 4]);
    InterleaveBothCons([3, 1, 3], [4, 2, 4]);
    InterleaveBothCons([1, 3], [2, 4]);
    InterleaveBothCons([3], [4]);
  }

  /** The documented order of `[1, 3, 5, 6]` with `[2, 4]`, call by call:
      1 to 6, then `None`. */
  method NormalUsage() returns (got: seq<Option<int>>)
    ensures got == [Some(1), Some(2), Some(3), Some(4), Some(5), Some(6), None]
  {
    var it := new BiAltern([1, 3, 5, 6], [2, 4]);
    ForwardOrder();
    var x1 := it.Next();
    assert it.Remaining() == [2, 3, 4, 5, 6];
    var x2 := it.Next();
    assert it.Remaining() == [3, 4, 5, 6];
    var x3 := it.Next();
    assert it.Remaining() == [4, 5, 6];
    var x4 := it.Next();
    assert it.Remaining() == [5, 6];
    var x5 := it.Next();
    assert it.Remaining() == [6];
    var x6 := it.Next();
    assert it.Remaining() == [];
    var x7 := it.Next();
    got := [x1, x2, x3, x4, x5, x6, x7];
  }

  /** Taking everything with `next_back` gives the forward order reversed. */
  method ReverseOrder() returns (got: seq<Option<int>>)
    ensures got == [Some(6), Some(5), Some(4), Some(3), Some(2), Some(1), None]
  {
    var it := new BiAltern([1, 3, 5, 6], [2, 4]);
    ForwardOrder();
    var x1 := it.NextBack();
    assert it.Remaining() == [1, 2, 3, 4, 5];
    var x2 := it.NextBack();
    assert it.Remaining() == [1, 2, 3, 4];
    var x3 := it.NextBack();
    assert it.Remaining() == [1, 2, 3];
    var x4 := it.NextBack();
    assert it.Remaining() == [1, 2];
    var x5 := it.NextBack();
    assert it.Remaining() == [1];
    var x6 := it.NextBack();
    assert it.Remaining() == [];
    var x7 := it.NextBack();
    got := [x1, x2, x3, x4, x5, x6, x7];
  }

  /** Mixing `next` and `next_back`: each element once, then `None`. */
  method NextAndNextBack() returns (got: seq<Option<int>>)
    ensures got == [Some(1), Some(6), Some(5), Some(2), Some(4), Some(3), None]
  {
    var it := new BiAltern([1, 3, 5, 6], [2, 4]);
    ForwardOrder();
    var x1 := it.Next();
    assert it.Remaining() == [2, 3, 4, 5, 6];
    var x2 := it.NextBack();
    assert it.Remaining() == [2, 3, 4, 5];
    var x3 := it.NextBack();
    assert it.Remaining() == [2, 3, 4];
    var x4 := it.Next();
    assert it.Remaining() == [3, 4];
    var x5 := it.NextBack();
    assert it.Remaining() == [3];
    var x6 := it.Next();
    assert it.Remaining() == [];
    var x7 := it.NextBack();
    got := [x1, x2, x3, x4, x5, x6, x7];
  }

  /** `len()` of the example is 6. */
  method Len() returns (n: nat)
    ensures n == 6
  {
    var it := new BiAltern([1, 3, 5, 6], [2, 4]);
    InterleaveLength([1, 3, 5, 6], [2, 4], true);
    var h := it.SizeHint();
    n := h.lower;
  }
}
