/** `Altern`: the legacy list interleaver.  It has the same state and the
    same `next` loop as `VecAltern`, so its `Next` runs `VecAltern.PullNext`
    and has the same closed form, `Step`; only its construction differs:
    `add` is a builder that consumes the interleaver and returns it. */
module AlternateIterator {
  import opened Wrappers
  import opened VecAltern

  class Altern<T> {
    var iters: seq<seq<T>>
    var current: nat

    /** The cursor invariant that makes the `panic!` of `next` unreachable. */
    ghost predicate Valid()
      reads this
    {
      CursorOk(|iters|, current)
    }

    /** The whole output this interleaver still gives. */
    function Remaining(): seq<T>
      reads this
      requires Valid()
    {
      RoundRobin(iters, current)
    }

    /** `Altern::new`: no producers, cursor 0. */
    constructor ()
      ensures Valid() && iters == [] && current == 0
    {
      iters := [];
      current := 0;
    }

    /** `add`: the producer goes to the end, the cursor and the other
        producers stay, and the interleaver itself is returned. */
    method Add(producer: seq<T>) returns (self: Altern<T>)
      requires Valid()
      modifies this
      ensures self == this && Valid()
      ensures iters == old(iters) + [producer] && current == old(current)
    {
      iters := iters + [producer];
      self := this;
    }

    /** `Iterator::next`: the round-robin loop, kept in bounds. */
    method Next() returns (r: Option<T>)
      requires Valid()
      modifies this
      ensures Valid()
      ensures Pull(r, iters, current) == Step(old(iters), old(current))
      ensures r == Front(old(Remaining())) && Remaining() == Rest(old(Remaining()))
    {
      r, iters, current := PullNext(iters, current);
    }
  }
}
