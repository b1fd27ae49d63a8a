/** The documented example and unit tests of `VecAltern`, as regression
    fixtures.  The example is `[1, 4, 7, 9]`, `[2, 5]` and `[3, 6, 8]`; each
    call of `next` on it is stated as one `Step`, with the list it leaves
    behind.  The states are parameters equal to the literals so that the
    verifier evaluates one call at a time. */
module VecAlternExamples {
  import opened Wrappers
  import opened VecAltern

  /** Call 1 of `next`: the first round takes the head of each producer in list order. */
  lemma Call1(s: seq<seq<int>>)
    requires s == [[1, 4, 7, 9], [2, 5], [3, 6, 8]]
    ensures Step(s, 0) == Pull(Some(1), [[4, 7, 9], [2, 5], [3, 6, 8]], 1)
  {
    StepAtLive(s, 0);
    assert s[0][1..] == [[4, 7, 9], [2, 5], [3, 6, 8]][0];
  }

  /** Call 2 of `next`. */
  lemma Call2(s: seq<seq<int>>)
    requires s == [[4, 7, 9], [2, 5], [3, 6, 8]]
    ensures Step(s, 1) == Pull(Some(2), [[4, 7, 9], [5], [3, 6, 8]], 2)
  {
    StepAtLive(s, 1);
    assert s[1][1..] == [[4, 7, 9], [5], [3, 6, 8]][1];
  }

  /** Call 3 of `next`. */
  lemma Call3(s: seq<seq<int>>)
    requires s == [[4, 7, 9], [5], [3, 6, 8]]
    ensures Step(s, 2) == Pull(Some(3), [[4, 7, 9], [5], [6, 8]], 0)
  {
    StepAtLive(s, 2);
    assert s[2][1..] == [[4, 7, 9], [5], [6, 8]][2];
  }

  /** Call 4 of `next`: the second round. */
  lemma Call4(s: seq<seq<int>>)
    requires s == [[4, 7, 9], [5], [6, 8]]
    ensures Step(s, 0) == Pull(Some(4), [[7, 9], [5], [6, 8]], 1)
  {
    StepAtLive(s, 0);
    assert s[0][1..] == [[7, 9], [5], [6, 8]][0];
  }

  /** Call 5 of `next`. */
  lemma Call5(s: seq<seq<int>>)
    requires s == [[7, 9], [5], [6, 8]]
    ensures Step(s, 1) == Pull(Some(5), [[7, 9], [], [6, 8]], 2)
  {
    StepAtLive(s, 1);
    assert s[1][1..] == [[7, 9], [], [6, 8]][1];
  }

  /** Call 6 of `next`. */
  lemma Call6(s: seq<seq<int>>)
    requires s == [[7, 9], [], [6, 8]]
    ensures Step(s, 2) == Pull(Some(6), [[7, 9], [], [8]], 0)
  {
    StepAtLive(s, 2);
    assert s[2][1..] == [[7, 9], [], [8]][2];
  }

  /** Call 7 of `next`: the third round starts with the first producer. */
  lemma Call7(s: seq<seq<int>>)
    requires s == [[7, 9], [], [8]]
    ensures Step(s, 0) == Pull(Some(7), [[9], [], [8]], 1)
  {
    StepAtLive(s, 0);
    assert s[0][1..] == [[9], [], [8]][0];
  }

  /** Call 8 of `next`: the second producer is found exhausted and removed, and
      the third, now under the cursor, gives its last element. */
  lemma Call8(s: seq<seq<int>>)
    requires s == [[9], [], [8]]
    ensures Step(s, 1) == Pull(Some(8), [[9], []], 0)
  {
    StepPastExhausted(s, 1);
    assert s[..1] + s[2..] == [[9], [8]];
    assert s[2][1..] == [];
  }

  /** Call 9 of `next`. */
  lemma Call9(s: seq<seq<int>>)
    requires s == [[9], []]
    ensures Step(s, 0) == Pull(Some(9), [[], []], 1)
  {
    StepAtLive(s, 0);
    assert s[0][1..] == [[], []][0];
  }

  /** Call 10 of `next`: both remaining producers are exhausted: both are
      removed and the list is empty. */
  lemma Call10(s: seq<seq<int>>)
    requires s == [[], []]
    ensures Step(s, 1) == Pull(None, [], 0)
  {
    assert AllExhausted(s);
  }

  /** The example list `[1, 4, 7, 9]`, `[2, 5]`, `[3, 6, 8]` with the cursor
      at 0 gives 1 to 9 in order, then `None`, call by call. */
  method DrainExample(v: VecAltern<int>) returns (got: seq<Option<int>>)
    requires v.Valid() && v.iters == [[1, 4, 7, 9], [2, 5], [3, 6, 8]] && v.current == 0
    modifies v
    ensures got == [Some(1), Some(2), Some(3), Some(4), Some(5), Some(6), Some(7), Some(8), Some(9), None]
  {
    Call1(v.iters);
    var x1 := v.Next();
    Call2(v.iters);
    var x2 := v.Next();
    Call3(v.iters);
    var x3 := v.Next();
    Call4(v.iters);
    var x4 := v.Next();
    Call5(v.iters);
    var x5 := v.Next();
    Call6(v.iters);
    var x6 := v.Next();
    Call7(v.iters);
    var x7 := v.Next();
    Call8(v.iters);
    var x8 := v.Next();
    Call9(v.iters);
    var x9 := v.Next();
    Call10(v.iters);
    var x10 := v.Next();
    got := [x1, x2, x3, x4, x5, x6, x7, x8, x9, x10];
  }

  /** The unit test: built with `add_and`, the interleaver gives 1 to 9. */
  method BuilderOrder() returns (got: seq<Option<int>>)
    ensures got == [Some(1), Some(2), Some(3), Some(4), Some(5), Some(6), Some(7), Some(8), Some(9), None]
  {
    var v := new VecAltern();
    v := v.AddAnd([1, 4, 7, 9]);
    v := v.AddAnd([2, 5]);
    v := v.AddAnd([3, 6, 8]);
    got := DrainExample(v);
  }

  /** The documented example: the same order when built with `add`. */
  method AddOrder() returns (got: seq<Option<int>>)
    ensures got == [Some(1), Some(2), Some(3), Some(4), Some(5), Some(6), Some(7), Some(8), Some(9), None]
  {
    var v := new VecAltern();
    v.Add([1, 4, 7, 9]);
    v.Add([2, 5]);
    v.Add([3, 6, 8]);
    got := DrainExample(v);
  }

  /** What `altern!` over the three vectors expands into: `with_capacity(3)`
      and an `add` per argument, in order; the same output. */
  method MacroExpansion() returns (got: seq<Option<int>>)
    ensures got == [Some(1), Some(2), Some(3), Some(4), Some(5), Some(6), Some(7), Some(8), Some(9), None]
  {
    var v := new VecAltern.WithCapacity(1 + (1 + (1 + 0)));
    v.Add([1, 4, 7, 9]);
    v.Add([2, 5]);
    v.Add([3, 6, 8]);
    got := DrainExample(v);
  }

  /** Three exhausted producers give `None` at the first call, and the
      call removes all three. */
  method AllEmpty() returns (r: Option<int>)
    ensures r == None
  {
    var v := new VecAltern();
    v := v.AddAnd([]);
    v := v.AddAnd([]);
    v := v.AddAnd([]);
    assert AllExhausted(v.iters);
    r := v.Next();
    assert v.iters == [] && v.current == 0;
  }
}
