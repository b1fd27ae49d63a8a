/** `BiAltern`: interleaves exactly two producers, taking from each in turn,
    and is itself a producer, so that it can be nested.

    Each producer is modelled by the elements it has left, a `seq<T>`.  The
    whole output that a `BiAltern` still has to give is `Remaining()`, built
    from the pure function `Interleave`; `Next` and `NextBack` are proved to
    take the first and the last element of that sequence. */
module BiAltern {
  import opened Wrappers

  /** The output of two producers interleaved, starting with `a` when
      `firstNext` holds: take from the side the cursor names and flip the
      cursor; once that side is exhausted, the rest of the other side. */
  function Interleave<T>(a: seq<T>, b: seq<T>, firstNext: bool): seq<T>
    decreases |a| + |b|
  {
    if firstNext then
      if a == [] then b else [a[0]] + Interleave(a[1..], b, false)
    else
      if b == [] then a else [b[0]] + Interleave(a, b[1..], true)
  }

  /** The length of the output is the sum of the lengths of the producers. */
  lemma {:induction false} InterleaveLength<T>(a: seq<T>, b: seq<T>, firstNext: bool)
    ensures |Interleave(a, b, firstNext)| == |a| + |b|
    decreases |a| + |b|
  {
    if firstNext && a != [] {
      InterleaveLength(a[1..], b, false);
    } else if !firstNext && b != [] {
      InterleaveLength(a, b[1..], true);
    }
  }

  /** Every element of both producers appears exactly once. */
  lemma InterleaveElements<T>(a: seq<T>, b: seq<T>, firstNext: bool)
    ensures multiset(Interleave(a, b, firstNext)) == multiset(a) + multiset(b)
  {
    if firstNext {
      InterleaveElementsFromFirst(a, b);
    } else {
      InterleaveSwap(a, b, false);
      InterleaveElementsFromFirst(b, a);
    }
  }

  lemma {:induction false} InterleaveElementsFromFirst<T>(a: seq<T>, b: seq<T>)
    ensures multiset(Interleave(a, b, true)) == multiset(a) + multiset(b)
    decreases |a| + |b|
  {
    if a != [] {
      InterleaveSwap(a[1..], b, false);
      InterleaveElementsFromFirst(b, a[1..]);
      assert a == [a[0]] + a[1..];
      assert Interleave(a, b, true) == [a[0]] + Interleave(b, a[1..], true);
    }
  }

  /** The cursor only says which side goes first: the two sides play symmetric roles. */
  lemma {:induction false} InterleaveSwap<T>(a: seq<T>, b: seq<T>, firstNext: bool)
    ensures Interleave(a, b, firstNext) == Interleave(b, a, !firstNext)
    decreases |a| + |b|
  {
    if firstNext && a != [] {
      InterleaveSwap(a[1..], b, false);
    } else if !firstNext && b != [] {
      InterleaveSwap(a, b[1..], true);
    }
  }

  /** While both producers last, a round takes the head of each, the first
      side's first. */
  lemma InterleaveBothCons<T>(a: seq<T>, b: seq<T>)
    requires a != [] && b != []
    ensures Interleave(a, b, true) == [a[0], b[0]] + Interleave(a[1..], b[1..], true)
  {
    assert Interleave(a, b, true) == [a[0]] + Interleave(a[1..], b, false);
  }

  /** Once one producer is exhausted, the output is the rest of the other,
      whichever side the cursor names. */
  lemma InterleaveOneLeft<T>(a: seq<T>, b: seq<T>, firstNext: bool)
    ensures Interleave(a, [], firstNext) == a
    ensures Interleave([], b, firstNext) == b
  {
    if a != [] {
      assert Interleave(a, [], true) == [a[0]] + Interleave(a[1..], [], false);
    }
    if b != [] {
      assert Interleave([], b, false) == [b[0]] + Interleave([], b[1..], true);
    }
  }

  /** Forward order in closed form: while both producers last, the output
      takes `a[i]` at position `2 * i` and `b[i]` at position `2 * i + 1`. */
  lemma {:induction false} InterleaveAlternates<T>(a: seq<T>, b: seq<T>, i: nat)
    requires i < |a| && i < |b|
    ensures |Interleave(a, b, true)| == |a| + |b|
    ensures Interleave(a, b, true)[2 * i] == a[i]
    ensures Interleave(a, b, true)[2 * i + 1] == b[i]
    decreases i
  {
    InterleaveLength(a, b, true);
    if i > 0 {
      InterleaveAlternates(a[1..], b[1..], i - 1);
    }
  }

  /** After `2 * m` elements, `m` the length of the shorter producer, the
      output is the rest of the longer producer. */
  lemma {:induction false} InterleaveTail<T>(a: seq<T>, b: seq<T>)
    ensures var m := if |a| <= |b| then |a| else |b|;
      |Interleave(a, b, true)| == |a| + |b| &&
      Interleave(a, b, true)[2 * m..] == a[m..] + b[m..]
    decreases |a|
  {
    InterleaveLength(a, b, true);
    if a != [] && b != [] {
      InterleaveTail(a[1..], b[1..]);
      assert Interleave(a, b, true) == [a[0], b[0]] + Interleave(a[1..], b[1..], true);
    }
  }

  /** The tie-break of `next_back`, second side: when the second producer has
      at least as many elements left as the first (the first counting one more
      when the cursor names the second side), the last element of the output
      is the last element of the second producer. */
  lemma {:induction false} InterleaveBackFromSecond<T>(a: seq<T>, b: seq<T>, firstNext: bool)
    requires |b| >= |a| + (if firstNext then 0 else 1)
    ensures b == [] ==> a == [] && Interleave(a, b, firstNext) == []
    ensures b != [] ==>
      Interleave(a, b, firstNext) == Interleave(a, DropBack(b), firstNext) + [b[|b| - 1]]
    decreases |a| + |b|
  {
    if firstNext && a != [] {
      InterleaveBackFromSecond(a[1..], b, false);
      assert Interleave(a, DropBack(b), true) == [a[0]] + Interleave(a[1..], DropBack(b), false);
    } else if !firstNext && |b| > 1 {
      InterleaveBackFromSecond(a, b[1..], true);
      assert DropBack(b)[1..] == DropBack(b[1..]);
      assert Interleave(a, DropBack(b), false) == [b[0]] + Interleave(a, DropBack(b[1..]), true);
    } else if !firstNext && |b| == 1 {
      assert Interleave(a, b, false) == [b[0]] + Interleave(a, [], true);
    }
  }

  /** The tie-break of `next_back`, first side: otherwise the last element of
      the output is the last element of the first producer. */
  lemma {:induction false} InterleaveBackFromFirst<T>(a: seq<T>, b: seq<T>, firstNext: bool)
    requires |b| < |a| + (if firstNext then 0 else 1)
    ensures a == [] ==> b == [] && Interleave(a, b, firstNext) == []
    ensures a != [] ==>
      Interleave(a, b, firstNext) == Interleave(DropBack(a), b, firstNext) + [a[|a| - 1]]
    decreases |a| + |b|
  {
    if !firstNext && b != [] {
      InterleaveBackFromFirst(a, b[1..], true);
      assert Interleave(DropBack(a), b, false) == [b[0]] + Interleave(DropBack(a), b[1..], true);
    } else if firstNext && |a| > 1 {
      InterleaveBackFromFirst(a[1..], b, false);
      assert DropBack(a)[1..] == DropBack(a[1..]);
      assert Interleave(DropBack(a), b, true) == [a[0]] + Interleave(DropBack(a[1..]), b, false);
    } else if firstNext && |a| == 1 {
      assert Interleave(a, b, true) == [a[0]] + Interleave([], b, false);
    }
  }

  /** A `size_hint`: a lower bound and, when known, an upper bound. */
  datatype SizeHint = SizeHint(lower: nat, upper: Option<nat>)

  /** `n` remaining elements are within the hint `h`. */
  predicate Bounds(h: SizeHint, n: nat)
  {
    h.lower <= n && (h.upper.Some? ==> n <= h.upper.value)
  }

  /** The hint of a producer that knows its length exactly (a slice iterator, or ExactSizeIterator). */
  function Exact(n: nat): SizeHint
  {
    SizeHint(n, Some(n))
  }

  function LowerOf(h: Option<SizeHint>): nat
  {
    if h.None? then 0 else h.value.lower
  }

  function UpperOf(h: Option<SizeHint>): Option<nat>
  {
    if h.None? then Some(0) else h.value.upper
  }

  /** The hint `size_hint` gives from the hints of the two slots, `None` for
      a slot that was emptied: an empty slot counts as exactly zero, the lower
      bounds add up, and the upper bound is known only when both are. */
  function CombineHints(h1: Option<SizeHint>, h2: Option<SizeHint>): (h: SizeHint)
    ensures h.lower == LowerOf(h1) + LowerOf(h2)
    ensures h.upper.Some? <==> UpperOf(h1).Some? && UpperOf(h2).Some?
    ensures h.upper.Some? ==> h.upper.value == UpperOf(h1).value + UpperOf(h2).value
    ensures h1.None? ==> h == if h2.None? then Exact(0) else h2.value
    ensures h2.None? && h1.Some? ==> h == h1.value
  {
    match (h1, h2)
    case (None, None) => SizeHint(0, Some(0))
    case (None, Some(hint2)) => hint2
    case (Some(hint1), None) => hint1
    case (Some(hint1), Some(hint2)) =>
      var upper :=
        match (hint1.upper, hint2.upper)
        case (None, None) => None
        case (None, Some(_)) => None
        case (Some(_), None) => None
        case (Some(u1), Some(u2)) => Some(u1 + u2);
      SizeHint(hint1.lower + hint2.lower, upper)
  }

  /** The combined hint is sound whenever the children's hints are. */
  lemma CombineHintsSound(h1: Option<SizeHint>, h2: Option<SizeHint>, n1: nat, n2: nat)
    requires h1.None? ==> n1 == 0
    requires h2.None? ==> n2 == 0
    requires h1.Some? ==> Bounds(h1.value, n1)
    requires h2.Some? ==> Bounds(h2.value, n2)
    ensures Bounds(CombineHints(h1, h2), n1 + n2)
  {
  }

  /** Two exact hints give an exact hint: what `ExactSizeIterator` relies on. */
  lemma CombineHintsExact(n1: nat, n2: nat)
    ensures CombineHints(Some(Exact(n1)), Some(Exact(n2))) == Exact(n1 + n2)
    ensures CombineHints(None, Some(Exact(n2))) == Exact(n2)
    ensures CombineHints(Some(Exact(n1)), None) == Exact(n1)
  {
  }

  /** The interleaver of two producers.  `iter1` and `iter2` are the slots,
      `None` once the producer in them has been found exhausted by `next`. */
  class BiAltern<T> {
    var iter1: Option<seq<T>>
    var iter2: Option<seq<T>>
    var nextIsFirst: bool

    /** The whole output this interleaver still gives. */
    function Remaining(): seq<T>
      reads this
    {
      match (iter1, iter2)
      case (Some(a), Some(b)) => Interleave(a, b, nextIsFirst)
      case (Some(a), None) => a
      case (None, Some(b)) => b
      case (None, None) => []
    }

    /** Each remaining element of each producer is output once. */
    lemma RemainingLength()
      ensures |Remaining()| == |SlotContents(iter1)| + |SlotContents(iter2)|
    {
      if iter1.Some? && iter2.Some? {
        InterleaveLength(iter1.value, iter2.value, nextIsFirst);
      }
    }

    constructor (first: seq<T>, second: seq<T>)
      ensures iter1 == Some(first) && iter2 == Some(second) && nextIsFirst
      ensures Remaining() == Interleave(first, second, true)
    {
      iter1 := Some(first);
      iter2 := Some(second);
      nextIsFirst := true;
    }

    /** `Iterator::next`. */
    method Next() returns (r: Option<T>)
      modifies this
      // as a producer: the first remaining element, and the rest stays
      ensures r == Front(old(Remaining()))
      ensures Remaining() == Rest(old(Remaining()))
      // an emptied slot is never refilled
      ensures old(iter1).None? ==> iter1.None?
      ensures old(iter2).None? ==> iter2.None?
      // both present: read the side the cursor names and flip the cursor;
      // if that side is exhausted, empty its slot and read the other side
      ensures old(iter1.Some? && iter2.Some?) ==> nextIsFirst == !old(nextIsFirst)
      ensures old(iter1.Some? && iter2.Some? && nextIsFirst) ==>
        if old(iter1).value == [] then
          iter1 == None && iter2 == Some(Rest(old(iter2).value)) && r == Front(old(iter2).value)
        else
          iter1 == Some(Rest(old(iter1).value)) && iter2 == old(iter2) && r == Front(old(iter1).value)
      ensures old(iter1.Some? && iter2.Some? && !nextIsFirst) ==>
        if old(iter2).value == [] then
          iter2 == None && iter1 == Some(Rest(old(iter1).value)) && r == Front(old(iter1).value)
        else
          iter2 == Some(Rest(old(iter2).value)) && iter1 == old(iter1) && r == Front(old(iter2).value)
      // one present: read it whatever the cursor says; none present: end
      ensures old(iter1.None? || iter2.None?) ==> nextIsFirst == old(nextIsFirst)
      ensures old(iter1.Some? && iter2.None?) ==>
        r == Front(old(iter1).value) && iter1 == Some(Rest(old(iter1).value)) && iter2 == None
      ensures old(iter1.None? && iter2.Some?) ==>
        r == Front(old(iter2).value) && iter2 == Some(Rest(old(iter2).value)) && iter1 == None
      ensures old(iter1.None? && iter2.None?) ==> r == None && iter1 == None && iter2 == None
    {
      match (nextIsFirst, iter1, iter2)
      case (true, Some(a), Some(b)) =>
        nextIsFirst := !nextIsFirst;
        if a != [] {
          r, iter1 := Front(a), Some(Rest(a));
        } else {
          iter1 := None;
          r, iter2 := Front(b), Some(Rest(b));
        }
      case (false, Some(a), Some(b)) =>
        nextIsFirst := !nextIsFirst;
        if b != [] {
          r, iter2 := Front(b), Some(Rest(b));
        } else {
          iter2 := None;
          r, iter1 := Front(a), Some(Rest(a));
        }
      case (true, Some(a), None) =>
        r, iter1 := Front(a), Some(Rest(a));
      case (false, Some(a), None) =>
        r, iter1 := Front(a), Some(Rest(a));
      case (true, None, Some(b)) =>
        r, iter2 := Front(b), Some(Rest(b));
      case (false, None, Some(b)) =>
        r, iter2 := Front(b), Some(Rest(b));
      case (true, None, None) =>
        r := None;
      case (false, None, None) =>
        r := None;
    }

    /** `Iterator::size_hint`, each producer reporting its exact length:
        the hint is exact and counts every remaining element (so `len()` is
        the sum of the remaining lengths). */
    function SizeHint(): (h: SizeHint)
      reads this
      ensures h == Exact(|Remaining()|)
    {
      RemainingLength();
      CombineHints(HintOf(iter1), HintOf(iter2))
    }

    /** `DoubleEndedIterator::next_back`.  It never changes the cursor and
        never empties a slot. */
    method NextBack() returns (r: Option<T>)
      modifies this
      // as a producer: the last remaining element, and the rest stays
      ensures r == Back(old(Remaining()))
      ensures Remaining() == DropBack(old(Remaining()))
      ensures nextIsFirst == old(nextIsFirst)
      ensures iter1.Some? == old(iter1).Some? && iter2.Some? == old(iter2).Some?
      // both present: the count-adjusted comparison picks the side
      ensures old(iter1.Some? && iter2.Some?) ==>
        var a, b := old(iter1).value, old(iter2).value;
        if |b| >= |a| + (if old(nextIsFirst) then 0 else 1) then
          r == Back(b) && iter2 == Some(DropBack(b)) && iter1 == old(iter1)
        else
          r == Back(a) && iter1 == Some(DropBack(a)) && iter2 == old(iter2)
      ensures old(iter1.Some? && iter2.None?) ==>
        r == Back(old(iter1).value) && iter1 == Some(DropBack(old(iter1).value))
      ensures old(iter1.None? && iter2.Some?) ==>
        r == Back(old(iter2).value) && iter2 == Some(DropBack(old(iter2).value))
      ensures old(iter1.None? && iter2.None?) ==> r == None
    {
      match (iter1, iter2)
      case (None, None) =>
        r := None;
      case (None, Some(b)) =>
        r, iter2 := Back(b), Some(DropBack(b));
      case (Some(a), None) =>
        r, iter1 := Back(a), Some(DropBack(a));
      case (Some(a), Some(b)) =>
        var n1 := |a| + if nextIsFirst then 0 else 1;
        var n2 := |b|;
        if n2 >= n1 {
          InterleaveBackFromSecond(a, b, nextIsFirst);
          r, iter2 := Back(b), Some(DropBack(b));
        } else {
          InterleaveBackFromFirst(a, b, nextIsFirst);
          r, iter1 := Back(a), Some(DropBack(a));
        }
    }
  }

  /** What a slot still holds: nothing once it has been emptied. */
  function SlotContents<T>(slot: Option<seq<T>>): seq<T>
  {
    if slot.None? then [] else slot.value
  }

  /** The hint of one slot, as `size_hint` reads it. */
  function HintOf<T>(slot: Option<seq<T>>): Option<SizeHint>
  {
    if slot.None? then None else Some(Exact(|slot.value|))
  }
}
