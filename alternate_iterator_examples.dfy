/** The unit test of the legacy `Altern`: the same example as for
    `VecAltern`, call by call. */
module AlternateIteratorExamples {
  import opened Wrappers
  import opened VecAlternExamples
  import opened AlternateIterator

  /** Built with the `add` builder, the interleaver gives 1 to 9 in order,
      then `None`. */
  method BuilderOrder() returns (got: seq<Option<int>>)
    ensures got == [Some(1), Some(2), Some(3), Some(4), Some(5), Some(6), Some(7), Some(8), Some(9), None]
  {
    var it := new Altern();
    it := it.Add([1, 4, 7, 9]);
    it := it.Add([2, 5]);
    it := it.Add([3, 6, 8]);
    Call1(it.iters);
    var x1 := it.Next();
    Call2(it.iters);
    var x2 := it.Next();
    Call3(it.iters);
    var x3 := it.Next();
    Call4(it.iters);
    var x4 := it.Next();
    Call5(it.iters);
    var x5 := it.Next();
    Call6(it.iters);
    var x6 := it.Next();
    Call7(it.iters);
    var x7 := it.Next();
    Call8(it.iters);
    var x8 := it.Next();
    Call9(it.iters);
    var x9 := it.Next();
    Call10(it.iters);
    var x10 := it.Next();
    got := [x1, x2, x3, x4, x5, x6, x7, x8, x9, x10];
  }
}
