/** `VecAltern`: interleaves a list of producers, which can grow at runtime,
    in round-robin order, dropping each producer once it is found exhausted.

    The list is `iters: seq<seq<T>>` (each producer is the elements it has
    left) and `current` is the cursor into it.  The source's `next` is the
    loop in `PullNext`; it is proved equal to `Step`, which says in closed
    form what one call does: skip the exhausted producers met cyclically from
    the cursor, take the head of the first live one, advance the cursor. */
module VecAltern {
  import opened Wrappers

  /** The cursor invariant: 0 when the list is empty, an index otherwise.
      It is what makes the out-of-bounds `panic!` of `next` unreachable. */
  predicate CursorOk(n: nat, current: nat)
  {
    if n == 0 then current == 0 else current < n
  }

  /** The producer `i` places after `start`, counting cyclically. */
  function Cyclic<T>(iters: seq<seq<T>>, start: nat, i: nat): seq<T>
    requires start < |iters| && i < |iters|
  {
    if start + i < |iters| then iters[start + i] else iters[start + i - |iters|]
  }

  /** Every producer in the list is exhausted. */
  predicate AllExhausted<T>(iters: seq<seq<T>>)
  {
    forall i :: 0 <= i < |iters| ==> iters[i] == []
  }

  /** The number of elements left in all producers together. */
  function TotalLen<T>(iters: seq<seq<T>>): nat
  {
    if iters == [] then 0 else |iters[0]| + TotalLen(iters[1..])
  }

  /** The producers that are not exhausted, in list order. */
  function Live<T>(iters: seq<seq<T>>): seq<seq<T>>
  {
    if iters == [] then [] else (if iters[0] == [] then [] else [iters[0]]) + Live(iters[1..])
  }

  /** How many producers, counting cyclically from `start` and beginning at
      the `k`-th, are exhausted before the first live one (`|iters|` when
      none is live). */
  function FirstLive<T>(iters: seq<seq<T>>, start: nat, k: nat): (r: nat)
    requires CursorOk(|iters|, start) && k <= |iters|
    ensures k <= r <= |iters|
    ensures forall i :: k <= i < r ==> Cyclic(iters, start, i) == []
    ensures r < |iters| ==> Cyclic(iters, start, r) != []
    decreases |iters| - k
  {
    if k == |iters| then k
    else if Cyclic(iters, start, k) != [] then k
    else FirstLive(iters, start, k + 1)
  }

  /** The list and cursor once the `k` producers cyclically from `start` have
      been removed: a slice with a gap when the removals do not wrap around
      the end, a single slice when they do. */
  function AfterSkipping<T>(iters: seq<seq<T>>, start: nat, k: nat): (r: (seq<seq<T>>, nat))
    requires CursorOk(|iters|, start) && k <= |iters|
    ensures |r.0| == |iters| - k
    ensures CursorOk(|r.0|, r.1)
    ensures k < |iters| ==> r.0[r.1] == Cyclic(iters, start, k)
  {
    var n := |iters|;
    if start + k < n then (iters[..start] + iters[start + k..], start)
    else (iters[start + k - n..start], 0)
  }

  /** The cursor one place on, cyclically, in a list of `n` producers. */
  function Advance(p: nat, n: nat): (r: nat)
    requires p < n
    ensures r < n
  {
    if p + 1 < n then p + 1 else 0
  }

  /** `Advance` is the source's `(current + 1) % len`. */
  lemma AdvanceIsMod(p: nat, n: nat)
    requires p < n
    ensures Advance(p, n) == (p + 1) % n
  {
    if p + 1 < n {
      ModSmall(p + 1, n);
    } else {
      ModSelf(n);
    }
  }

  /** The outcome of one `next`: the value returned and the new state. */
  datatype Pull<T> = Pull(item: Option<T>, iters: seq<seq<T>>, current: nat)

  function Max(a: nat, b: nat): nat
  {
    if a >= b then a else b
  }

  /** One call of `next` in closed form.  It returns `None` exactly when every
      producer is exhausted, and keeps the cursor in bounds. */
  function Step<T>(iters: seq<seq<T>>, current: nat): (r: Pull<T>)
    requires CursorOk(|iters|, current)
    ensures CursorOk(|r.iters|, r.current)
    ensures r.item.None? <==> AllExhausted(iters)
    ensures r.item.None? ==> r.iters == [] && r.current == 0
  {
    var k := FirstLive(iters, current, 0);
    FirstLiveExhausted(iters, current);
    if k == |iters| then
      Pull(None, [], 0)
    else
      var (rest, p) := AfterSkipping(iters, current, k);
      Pull(Some(rest[p][0]), rest[p := rest[p][1..]], Advance(p, |rest|))
  }

  /** A call that returns a value takes exactly one element out of the
      producers, and one that returns `None` finds none left. */
  lemma StepTotalLen<T>(iters: seq<seq<T>>, current: nat)
    requires CursorOk(|iters|, current)
    ensures var r := Step(iters, current);
      TotalLen(r.iters) + (if r.item.Some? then 1 else 0) == TotalLen(iters)
  {
    var k := FirstLive(iters, current, 0);
    FirstLiveExhausted(iters, current);
    if k == |iters| {
      TotalLenExhausted(iters);
    } else {
      var (rest, p) := AfterSkipping(iters, current, k);
      SkippingKeepsLive(iters, current, k);
      TotalLenLive(iters);
      TotalLenLive(rest);
      TotalLenUpdate(rest, p, rest[p][1..]);
    }
  }

  /** The source's `next`: a loop that reads the producer under the cursor,
      returns its value and advances the cursor, or removes it when it is
      exhausted and tries again.  Each round that does not return removes a
      producer, so the loop runs at most `|iters0| + 1` times. */
  method PullNext<T>(iters0: seq<seq<T>>, current0: nat) returns (item: Option<T>, iters: seq<seq<T>>, current: nat)
    requires CursorOk(|iters0|, current0)
    ensures Pull(item, iters, current) == Step(iters0, current0)
  {
    iters, current := iters0, current0;
    ghost var k := 0;
    assert iters0[..current0] + iters0[current0..] == iters0;
    while true
      invariant k <= |iters0|
      invariant (iters, current) == AfterSkipping(iters0, current0, k)
      invariant forall i :: 0 <= i < k ==> Cyclic(iters0, current0, i) == []
      decreases |iters|
    {
      if |iters| == 0 {
        FirstLiveIs(iters0, current0, k);
        return None, iters, current;
      }
      // The source panics when `current` is out of bounds; the index is in range here.
      var next := Front(iters[current]);
      match next
      case Some(value) =>
        FirstLiveIs(iters0, current0, k);
        assert Step(iters0, current0) == Pull(Some(value), iters[current := Rest(iters[current])], Advance(current, |iters|));
        iters := iters[current := Rest(iters[current])];
        AdvanceIsMod(current, |iters|);
        current := (current + 1) % |iters|;
        return Some(value), iters, current;
      case None =>
        SkipOne(iters0, current0, k);
        iters := iters[..current] + iters[current + 1..];
        current := current % Max(|iters|, 1);
        k := k + 1;
    }
  }

  /** The whole output that the list still gives, if nothing is added. */
  function RoundRobin<T>(iters: seq<seq<T>>, current: nat): seq<T>
    requires CursorOk(|iters|, current)
    decreases TotalLen(iters)
  {
    var r := Step(iters, current);
    StepTotalLen(iters, current);
    if r.item.None? then [] else [r.item.value] + RoundRobin(r.iters, r.current)
  }

  /** Conservation of length: the output has as many elements as all
      producers together. */
  lemma {:induction false} RoundRobinLength<T>(iters: seq<seq<T>>, current: nat)
    requires CursorOk(|iters|, current)
    ensures |RoundRobin(iters, current)| == TotalLen(iters)
    decreases TotalLen(iters)
  {
    var r := Step(iters, current);
    StepTotalLen(iters, current);
    if r.item.Some? {
      RoundRobinLength(r.iters, r.current);
    }
  }

  /** The first element of each producer that has one, in list order. */
  function Heads<T>(s: seq<seq<T>>): seq<T>
  {
    if s == [] then [] else (if s[0] == [] then [] else [s[0][0]]) + Heads(s[1..])
  }

  /** When every producer is live, `Heads` has one element per producer. */
  lemma {:induction false} HeadsOfLive<T>(s: seq<seq<T>>)
    requires forall j :: 0 <= j < |s| ==> s[j] != []
    ensures |Heads(s)| == |s|
    ensures forall j :: 0 <= j < |s| ==> Heads(s)[j] == s[j][0]
  {
    if s != [] {
      HeadsOfLive(s[1..]);
      assert Heads(s) == [s[0][0]] + Heads(s[1..]);
    }
  }

  /** The list once each producer from `c` to the end has given one element. */
  function AfterRound<T>(iters: seq<seq<T>>, c: nat): (r: seq<seq<T>>)
    requires c <= |iters|
    ensures |r| == |iters|
    ensures forall j :: 0 <= j < |iters| ==> r[j] == if j < c then iters[j] else Rest(iters[j])
    decreases |iters| - c
  {
    if c == |iters| then iters else AfterRound(iters[c := Rest(iters[c])], c + 1)
  }

  /** `RoundRobin` unfolded once at a live producer under the cursor. */
  lemma RoundRobinAtLive<T>(iters: seq<seq<T>>, c: nat)
    requires CursorOk(|iters|, c) && iters != [] && iters[c] != []
    ensures RoundRobin(iters, c)
         == [iters[c][0]] + RoundRobin(iters[c := iters[c][1..]], Advance(c, |iters|))
  {
    StepAtLive(iters, c);
    StepTotalLen(iters, c);
  }

  /** The list facts behind one step of a round. */
  lemma RoundStep<T>(iters: seq<seq<T>>, c: nat)
    requires c < |iters| && forall j :: c <= j < |iters| ==> iters[j] != []
    ensures var after := iters[c := iters[c][1..]];
      && AfterRound(iters, c) == AfterRound(after, c + 1)
      && Heads(iters[c..]) == [iters[c][0]] + Heads(after[c + 1..])
      && (c + 1 < |iters| ==> Advance(c, |iters|) == c + 1 && forall j :: c + 1 <= j < |iters| ==> after[j] != [])
      && (c + 1 == |iters| ==> Advance(c, |iters|) == 0 && AfterRound(after, c + 1) == after && Heads(after[c + 1..]) == [])
  {
    var after := iters[c := iters[c][1..]];
    assert iters[c..][1..] == after[c + 1..];
  }

  /** Regrouping a concatenation. */
  lemma ConcatRegroup<T>(h: seq<T>, hs: seq<T>, rest: seq<T>, x: seq<T>, y: seq<T>, heads: seq<T>)
    requires x == h + y && y == hs + rest && heads == h + hs
    ensures x == heads + rest
  {
  }

  /** While the producers from the cursor to the end of the list are all
      live, the output starts with their heads in list order; after that
      the cursor is back at 0 and each of them has given one element. */
  lemma {:induction false} RoundFrom<T>(iters: seq<seq<T>>, c: nat)
    requires c < |iters| && forall j :: c <= j < |iters| ==> iters[j] != []
    ensures RoundRobin(iters, c) == Heads(iters[c..]) + RoundRobin(AfterRound(iters, c), 0)
    decreases |iters| - c
  {
    var after := iters[c := iters[c][1..]];
    RoundStep(iters, c);
    RoundRobinAtLive(iters, c);
    if c + 1 < |iters| {
      RoundFrom(after, c + 1);
      ConcatRegroup([iters[c][0]], Heads(after[c + 1..]), RoundRobin(AfterRound(iters, c), 0),
        RoundRobin(iters, c), RoundRobin(after, c + 1), Heads(iters[c..]));
    } else {
      ConcatRegroup([iters[c][0]], [], RoundRobin(AfterRound(iters, c), 0),
        RoundRobin(iters, c), RoundRobin(after, 0), Heads(iters[c..]));
    }
  }

  /** The first `m` rounds from cursor 0, each the heads of the producers in
      list order. */
  function Rounds<T>(iters: seq<seq<T>>, m: nat): seq<T>
    decreases m
  {
    if m == 0 then [] else Heads(iters) + Rounds(AfterRound(iters, 0), m - 1)
  }

  /** The list after `m` such rounds. */
  function AfterRounds<T>(iters: seq<seq<T>>, m: nat): seq<seq<T>>
    decreases m
  {
    if m == 0 then iters else AfterRounds(AfterRound(iters, 0), m - 1)
  }

  /** While every producer has at least `m` elements, the output from cursor
      0 begins with `m` full rounds. */
  lemma {:induction false} RoundsPrefix<T>(iters: seq<seq<T>>, m: nat)
    requires iters != [] && forall k :: 0 <= k < |iters| ==> |iters[k]| >= m
    ensures RoundRobin(iters, 0) == Rounds(iters, m) + RoundRobin(AfterRounds(iters, m), 0)
    decreases m
  {
    if m == 0 {
      EmptyPrefix(Rounds(iters, m), RoundRobin(iters, 0), RoundRobin(AfterRounds(iters, m), 0));
    } else {
      var next := AfterRound(iters, 0);
      var m1: nat := m - 1;
      FullRound(iters, m, m1);
      RoundsPrefix(next, m1);
      ConcatRegroup(Heads(iters), Rounds(next, m1), RoundRobin(AfterRounds(next, m1), 0),
        RoundRobin(iters, 0), RoundRobin(next, 0), Rounds(iters, m));
    }
  }

  lemma EmptyPrefix<T>(h: seq<T>, x: seq<T>, y: seq<T>)
    requires h == [] && x == y
    ensures x == h + y
  {
  }

  /** One full round from cursor 0 when every producer has at least
      `m = m1 + 1` elements: the heads come first, in list order. */
  lemma FullRound<T>(iters: seq<seq<T>>, m: nat, m1: nat)
    requires m == m1 + 1 && forall k :: 0 <= k < |iters| ==> |iters[k]| >= m
    ensures var next := AfterRound(iters, 0);
      && (iters != [] ==> RoundRobin(iters, 0) == Heads(iters) + RoundRobin(next, 0))
      && Rounds(iters, m) == Heads(iters) + Rounds(next, m1)
      && AfterRounds(iters, m) == AfterRounds(next, m1)
      && forall k :: 0 <= k < |next| ==> |next[k]| >= m1
  {
    RoundsStep(iters, m, m1);
    if iters != [] {
      assert iters[0..] == iters;
      RoundFrom(iters, 0);
    }
  }

  /** `Rounds` and `AfterRounds` unfolded once, with one element taken from
      each producer. */
  lemma RoundsStep<T>(iters: seq<seq<T>>, m: nat, m1: nat)
    requires m == m1 + 1 && forall k :: 0 <= k < |iters| ==> |iters[k]| >= m
    ensures var next := AfterRound(iters, 0);
      && Rounds(iters, m) == Heads(iters) + Rounds(next, m1)
      && AfterRounds(iters, m) == AfterRounds(next, m1)
      && |Heads(iters)| == |iters|
      && forall k :: 0 <= k < |next| ==> next[k] == iters[k][1..] && |next[k]| >= m1
  {
    RoundsUnfold(iters, m, m1);
    RoundTails(iters, m, m1);
  }

  lemma RoundsUnfold<T>(iters: seq<seq<T>>, m: nat, m1: nat)
    requires m == m1 + 1
    ensures Rounds(iters, m) == Heads(iters) + Rounds(AfterRound(iters, 0), m1)
    ensures AfterRounds(iters, m) == AfterRounds(AfterRound(iters, 0), m1)
  {
  }

  lemma RoundTails<T>(iters: seq<seq<T>>, m: nat, m1: nat)
    requires m == m1 + 1 && forall k :: 0 <= k < |iters| ==> |iters[k]| >= m
    ensures var next := AfterRound(iters, 0);
      && |Heads(iters)| == |iters|
      && forall k :: 0 <= k < |next| ==> next[k] == iters[k][1..] && |next[k]| >= m1
  {
    HeadsOfLive(iters);
  }

  /** `i` rounds of `n` producers followed by `j` more elements. */
  function Pos(i: nat, n: nat): nat
  {
    if i == 0 then 0 else n + Pos(i - 1, n)
  }

  lemma {:induction false} PosIsMul(i: nat, n: nat)
    ensures Pos(i, n) == i * n
  {
    if i > 0 {
      PosIsMul(i - 1, n);
    }
  }

  lemma PosStep(i: nat, n1: nat, n2: nat, j: nat, q: nat)
    requires i > 0 && n1 == n2 && q == Pos(i, n2) + j
    ensures q >= n2 && q - n2 == Pos(i - 1, n1) + j
  {
  }

  /** Position `Pos(i, n) + j` of the first `m` rounds is the `i`-th element
      of producer `j`. */
  lemma {:induction false} RoundsIndex<T>(iters: seq<seq<T>>, m: nat, i: nat, j: nat, q: nat)
    requires forall k :: 0 <= k < |iters| ==> |iters[k]| >= m
    requires i < m && j < |iters| && q == Pos(i, |iters|) + j
    ensures q < |Rounds(iters, m)| && Rounds(iters, m)[q] == iters[j][i]
    decreases i
  {
    var next := AfterRound(iters, 0);
    var m1: nat := m - 1;
    RoundsStep(iters, m, m1);
    if i == 0 {
      HeadsOfLive(iters);
      IndexLeft(Rounds(iters, m), Heads(iters), Rounds(next, m1), j);
    } else {
      var i1: nat := i - 1;
      PosStep(i, |next|, |iters|, j, q);
      var t: nat := q - |iters|;
      RoundsIndex(next, m1, i1, j, t);
      IndexShift(Rounds(iters, m), Heads(iters), Rounds(next, m1), |iters|, t, q, next[j][i1]);
    }
  }

  /** Round-robin order over the whole output: from cursor 0, while every
      producer still has elements, round `i` gives the `i`-th element of
      each producer in list order, so the element at position
      `i * |iters| + j` is `iters[j][i]`. */
  lemma RoundRobinFair<T>(iters: seq<seq<T>>, m: nat, i: nat, j: nat)
    requires forall k :: 0 <= k < |iters| ==> |iters[k]| >= m
    requires i < m && j < |iters|
    ensures i * |iters| + j < |RoundRobin(iters, 0)|
    ensures RoundRobin(iters, 0)[i * |iters| + j] == iters[j][i]
  {
    var q := Pos(i, |iters|) + j;
    PosIsMul(i, |iters|);
    RoundsPrefix(iters, m);
    RoundsIndex(iters, m, i, j, q);
    IndexPrefix(RoundRobin(iters, 0), Rounds(iters, m), RoundRobin(AfterRounds(iters, m), 0),
      q, i * |iters| + j, iters[j][i]);
  }

  /** An index into the left part of a concatenation, given as two equal terms. */
  lemma IndexPrefix<T>(x: seq<T>, h: seq<T>, y: seq<T>, a: nat, b: nat, v: T)
    requires x == h + y && a == b && a < |h| && h[a] == v
    ensures b < |x| && x[b] == v
  {
  }

  /** An index into the left part of a concatenation. */
  lemma IndexLeft<T>(x: seq<T>, h: seq<T>, y: seq<T>, t: nat)
    requires x == h + y && t < |h|
    ensures t < |x| && x[t] == h[t]
  {
  }

  /** An index into the right part of a concatenation, `n` the length of the left part. */
  lemma IndexShift<T>(x: seq<T>, h: seq<T>, y: seq<T>, n: nat, t: nat, q: nat, v: T)
    requires x == h + y && |h| == n && t < |y| && y[t] == v && q == n + t
    ensures q < |x| && x[q] == v
  {
  }

  /** What a call that returns a value does: the value is the head of the
      first live producer found cyclically from the cursor; the `k`
      producers passed on the way, all exhausted, are removed and no others:
      the list becomes the original with that cyclic run cut out, the
      producer read in the cursor's place; the cursor moves one past it. */
  lemma StepTakesFirstLive<T>(iters: seq<seq<T>>, current: nat)
    requires CursorOk(|iters|, current) && !AllExhausted(iters)
    ensures var k := FirstLive(iters, current, 0);
      var r := Step(iters, current);
      var p := if current + k < |iters| then current else 0;
      && k < |iters|
      && r.item == Some(Cyclic(iters, current, k)[0])
      && |r.iters| == |iters| - k
      && p < |r.iters|
      && r.iters[p] == Cyclic(iters, current, k)[1..]
      && r.iters[p := Cyclic(iters, current, k)]
         == (if current + k < |iters| then iters[..current] + iters[current + k..]
             else iters[current + k - |iters|..current])
      && Live(r.iters[p := Cyclic(iters, current, k)]) == Live(iters)
      && r.current == Advance(p, |r.iters|)
  {
    var k := FirstLive(iters, current, 0);
    StepFound(iters, current);
    var p := if current + k < |iters| then current else 0;
    var rest := AfterSkipping(iters, current, k).0;
    var r := Step(iters, current);
    assert r == Pull(Some(rest[p][0]), rest[p := rest[p][1..]], Advance(p, |rest|));
    SkippingKeepsLive(iters, current, k);
    StepCutsOut(iters, current);
  }

  /** Putting the producer read back in its place gives the list with just
      the run of producers passed over cut out. */
  lemma StepCutsOut<T>(iters: seq<seq<T>>, current: nat)
    requires CursorOk(|iters|, current) && !AllExhausted(iters)
    ensures var k := FirstLive(iters, current, 0);
      var r := Step(iters, current);
      var p := if current + k < |iters| then current else 0;
      && k < |iters| && p < |r.iters|
      && r.iters[p := Cyclic(iters, current, k)]
         == (if current + k < |iters| then iters[..current] + iters[current + k..]
             else iters[current + k - |iters|..current])
  {
    var k := FirstLive(iters, current, 0);
    StepFound(iters, current);
    var p := if current + k < |iters| then current else 0;
    var rest := AfterSkipping(iters, current, k).0;
    assert Step(iters, current).iters == rest[p := rest[p][1..]];
    assert Step(iters, current).iters[p := Cyclic(iters, current, k)] == rest;
  }

  /** `Step` when some producer is live, unfolded. */
  lemma StepFound<T>(iters: seq<seq<T>>, current: nat)
    requires CursorOk(|iters|, current) && !AllExhausted(iters)
    ensures var k := FirstLive(iters, current, 0);
      k < |iters| &&
      var (rest, p) := AfterSkipping(iters, current, k);
      && p == (if current + k < |iters| then current else 0)
      && rest[p] == Cyclic(iters, current, k)
      && Step(iters, current) == Pull(Some(rest[p][0]), rest[p := rest[p][1..]], Advance(p, |rest|))
  {
    var k := FirstLive(iters, current, 0);
    FirstLiveExhausted(iters, current);
    assert k < |iters|;
    var (rest, p) := AfterSkipping(iters, current, k);
    assert Step(iters, current) == Pull(Some(rest[p][0]), rest[p := rest[p][1..]], Advance(p, |rest|));
  }

  /** The common case: when the producer under the cursor is live, `next`
      takes its head, removes nothing and moves the cursor one on, cyclically. */
  lemma StepAtLive<T>(iters: seq<seq<T>>, current: nat)
    requires CursorOk(|iters|, current) && iters != [] && iters[current] != []
    ensures Step(iters, current)
         == Pull(Some(iters[current][0]), iters[current := iters[current][1..]], Advance(current, |iters|))
  {
    FirstLiveIs(iters, current, 0);
    assert iters[..current] + iters[current..] == iters;
  }

  /** The removing case: when the producer under the cursor is exhausted and
      the one after it is live, `next` removes the first, takes the head of
      the second, which has moved into the cursor's place, and moves the
      cursor one on in the shortened list. */
  lemma StepPastExhausted<T>(iters: seq<seq<T>>, current: nat)
    requires current + 1 < |iters| && iters[current] == [] && iters[current + 1] != []
    ensures var rest := iters[..current] + iters[current + 1..];
      Step(iters, current)
      == Pull(Some(iters[current + 1][0]), rest[current := iters[current + 1][1..]], Advance(current, |rest|))
  {
    FirstLiveIs(iters, current, 1);
  }

  // ---- helper lemmas ----

  lemma ModSmall(x: nat, n: nat)
    requires x < n
    ensures x % n == x
  {
  }

  lemma ModSelf(n: nat)
    requires n > 0
    ensures n % n == 0
  {
  }

  /** The search finds nothing exactly when every producer is exhausted. */
  lemma FirstLiveExhausted<T>(iters: seq<seq<T>>, start: nat)
    requires CursorOk(|iters|, start)
    ensures FirstLive(iters, start, 0) == |iters| <==> AllExhausted(iters)
  {
    var n := |iters|;
    if FirstLive(iters, start, 0) == n {
      forall j | 0 <= j < n ensures iters[j] == [] {
        var i := if j >= start then j - start else j + n - start;
        assert Cyclic(iters, start, i) == iters[j];
      }
    } else {
      var i := FirstLive(iters, start, 0);
      assert Cyclic(iters, start, i) != [];
      var j := if start + i < n then start + i else start + i - n;
      assert iters[j] != [];
    }
  }

  /** The search stops at the first live producer and nowhere else. */
  lemma FirstLiveIs<T>(iters: seq<seq<T>>, start: nat, k: nat)
    requires CursorOk(|iters|, start) && k <= |iters|
    requires forall i :: 0 <= i < k ==> Cyclic(iters, start, i) == []
    requires k < |iters| ==> Cyclic(iters, start, k) != []
    ensures FirstLive(iters, start, 0) == k
  {
  }

  /** Removing the producer under the cursor after `k` removals is the state after `k + 1`. */
  lemma SkipOne<T>(iters: seq<seq<T>>, start: nat, k: nat)
    requires CursorOk(|iters|, start) && k < |iters|
    ensures var (l, c) := AfterSkipping(iters, start, k);
      c < |l| &&
      (l[..c] + l[c + 1..], c % Max(|l| - 1, 1)) == AfterSkipping(iters, start, k + 1)
  {
    var n := |iters|;
    var (l, c) := AfterSkipping(iters, start, k);
    if start + k + 1 < n {
      assert l[..c] == iters[..start];
      assert l[c + 1..] == iters[start + k + 1..];
      ModSmall(c, n - k - 1);
    } else if start + k + 1 == n {
      assert l[..c] + l[c + 1..] == iters[0..start];
      assert AfterSkipping(iters, start, k + 1) == (iters[0..start], 0);
      if start > 0 {
        assert Max(|l| - 1, 1) == start == c;
        ModSelf(start);
      }
    } else {
      assert l[..c] + l[c + 1..] == iters[start + k + 1 - n..start];
    }
  }

  lemma {:induction false} LiveConcat<T>(a: seq<seq<T>>, b: seq<seq<T>>)
    ensures Live(a + b) == Live(a) + Live(b)
    decreases |a|
  {
    if a != [] {
      LiveConcat(a[1..], b);
      var head := if a[0] == [] then [] else [a[0]];
      calc {
        Live(a + b);
        head + Live((a + b)[1..]);
        { assert (a + b)[1..] == a[1..] + b; }
        head + (Live(a[1..]) + Live(b));
        Live(a) + Live(b);
      }
    } else {
      assert a + b == b;
    }
  }

  lemma {:induction false} LiveOfExhausted<T>(a: seq<seq<T>>)
    requires AllExhausted(a)
    ensures Live(a) == []
    decreases |a|
  {
    if a != [] {
      LiveOfExhausted(a[1..]);
    }
  }

  /** Dropping a run of exhausted producers does not change the live ones. */
  lemma LiveWithoutMiddle<T>(left: seq<seq<T>>, mid: seq<seq<T>>, right: seq<seq<T>>)
    requires AllExhausted(mid)
    ensures Live(left + mid + right) == Live(left + right)
  {
    LiveOfExhausted(mid);
    LiveConcat(left + mid, right);
    LiveConcat(left, mid);
    LiveConcat(left, right);
  }

  lemma LiveWithoutEnds<T>(left: seq<seq<T>>, mid: seq<seq<T>>, right: seq<seq<T>>)
    requires AllExhausted(left) && AllExhausted(right)
    ensures Live(left + mid + right) == Live(mid)
  {
    LiveOfExhausted(left);
    LiveOfExhausted(right);
    LiveConcat(left + mid, right);
    LiveConcat(left, mid);
  }

  /** Skipping only exhausted producers leaves the live ones, in order. */
  lemma SkippingKeepsLive<T>(iters: seq<seq<T>>, start: nat, k: nat)
    requires CursorOk(|iters|, start) && k <= |iters|
    requires forall i :: 0 <= i < k ==> Cyclic(iters, start, i) == []
    ensures Live(AfterSkipping(iters, start, k).0) == Live(iters)
  {
    if |iters| == 0 {
      assert AfterSkipping(iters, start, k).0 == [] == iters;
    } else if start + k < |iters| {
      SkippingKeepsLiveInside(iters, start, k);
    } else {
      SkippingKeepsLiveAround(iters, start, k);
    }
  }

  lemma SkippingKeepsLiveInside<T>(iters: seq<seq<T>>, start: nat, k: nat)
    requires start + k < |iters|
    requires forall i :: 0 <= i < k ==> Cyclic(iters, start, i) == []
    ensures Live(iters[..start] + iters[start + k..]) == Live(iters)
  {
    var left, mid, right := iters[..start], iters[start..start + k], iters[start + k..];
    assert iters == left + mid + right;
    forall j | 0 <= j < |mid| ensures mid[j] == [] {
      assert Cyclic(iters, start, j) == mid[j];
    }
    LiveWithoutMiddle(left, mid, right);
  }

  lemma SkippingKeepsLiveAround<T>(iters: seq<seq<T>>, start: nat, k: nat)
    requires start < |iters| <= start + k && k <= |iters|
    requires forall i :: 0 <= i < k ==> Cyclic(iters, start, i) == []
    ensures Live(iters[start + k - |iters|..start]) == Live(iters)
  {
    var n := |iters|;
    var m := start + k - n;
    var left, mid, right := iters[..m], iters[m..start], iters[start..];
    assert iters == left + mid + right;
    forall j | 0 <= j < |left| ensures left[j] == [] {
      assert Cyclic(iters, start, j + n - start) == left[j];
    }
    forall j | 0 <= j < |right| ensures right[j] == [] {
      assert Cyclic(iters, start, j) == right[j];
    }
    LiveWithoutEnds(left, mid, right);
  }

  lemma {:induction false} TotalLenConcat<T>(a: seq<seq<T>>, b: seq<seq<T>>)
    ensures TotalLen(a + b) == TotalLen(a) + TotalLen(b)
    decreases |a|
  {
    if a != [] {
      TotalLenConcat(a[1..], b);
      calc {
        TotalLen(a + b);
        |a[0]| + TotalLen((a + b)[1..]);
        { assert (a + b)[1..] == a[1..] + b; }
        |a[0]| + TotalLen(a[1..]) + TotalLen(b);
      }
    } else {
      assert a + b == b;
    }
  }

  lemma {:induction false} TotalLenLive<T>(a: seq<seq<T>>)
    ensures TotalLen(Live(a)) == TotalLen(a)
    decreases |a|
  {
    if a != [] {
      TotalLenLive(a[1..]);
      TotalLenConcat(if a[0] == [] then [] else [a[0]], Live(a[1..]));
    }
  }

  lemma {:induction false} TotalLenExhausted<T>(a: seq<seq<T>>)
    requires AllExhausted(a)
    ensures TotalLen(a) == 0
    decreases |a|
  {
    if a != [] {
      TotalLenExhausted(a[1..]);
    }
  }

  lemma TotalLenUpdate<T>(a: seq<seq<T>>, p: nat, x: seq<T>)
    requires p < |a|
    ensures TotalLen(a[p := x]) + |a[p]| == TotalLen(a) + |x|
  {
    assert a == a[..p] + [a[p]] + a[p + 1..];
    assert a[p := x] == a[..p] + [x] + a[p + 1..];
    TotalLenConcat(a[..p] + [a[p]], a[p + 1..]);
    TotalLenConcat(a[..p], [a[p]]);
    TotalLenConcat(a[..p] + [x], a[p + 1..]);
    TotalLenConcat(a[..p], [x]);
  }

  /** The list interleaver. */
  class VecAltern<T> {
    var iters: seq<seq<T>>
    var current: nat

    ghost predicate Valid()
      reads this
    {
      CursorOk(|iters|, current)
    }

    /** The whole output this interleaver still gives, if nothing is added. */
    function Remaining(): seq<T>
      reads this
      requires Valid()
    {
      RoundRobin(iters, current)
    }

    /** `VecAltern::new`: no producers, cursor 0. */
    constructor ()
      ensures Valid() && iters == [] && current == 0
    {
      iters := [];
      current := 0;
    }

    /** `VecAltern::with_capacity`: the capacity changes nothing that can be observed. */
    constructor WithCapacity(capacity: nat)
      ensures Valid() && iters == [] && current == 0
    {
      iters := [];
      current := 0;
    }

    /** `add`: the producer goes to the end; the cursor and the other producers stay. */
    method Add(producer: seq<T>)
      requires Valid()
      modifies this
      ensures Valid()
      ensures iters == old(iters) + [producer] && current == old(current)
    {
      iters := iters + [producer];
    }

    /** `add_and`: `add`, returning the interleaver itself, as a builder. */
    method AddAnd(producer: seq<T>) returns (self: VecAltern<T>)
      requires Valid()
      modifies this
      ensures self == this && Valid()
      ensures iters == old(iters) + [producer] && current == old(current)
    {
      iters := iters + [producer];
      self := this;
    }

    /** `Iterator::next`. */
    method Next() returns (r: Option<T>)
      requires Valid()
      modifies this
      ensures Valid()
      ensures Pull(r, iters, current) == Step(old(iters), old(current))
      ensures r == Front(old(Remaining())) && Remaining() == Rest(old(Remaining()))
    {
      r, iters, current := PullNext(iters, current);
    }
  }
}
