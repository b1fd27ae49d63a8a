# Interleaving iterators of `combin-iterator`, modelled in Dafny

The Rust crate `combin-iterator` offers iterators that take elements from
several producers in turn:

- `BiAltern` interleaves exactly two producers. It is itself an iterator, so
  it can be nested. It keeps two optional slots (`iter1`, `iter2`) and a
  boolean cursor (`next_is_first`). `next` reads the side the cursor names
  and flips the cursor. It empties a slot whose producer is exhausted and
  falls back to the other side. `size_hint` combines the two children's hints.
  `next_back` picks a side by comparing lengths, adjusted by the cursor, so
  that reading from the back stays consistent with the forward order. The
  crate ships the same code twice, in `src/altern/bi_altern.rs` and
  `src/combin_iterator/bi_altern.rs`. One model covers both files, and the
  rows below cite whichever copy is clearer for the point.
- `VecAltern` interleaves a growable list of producers in round-robin order.
  It keeps the list `iters` and a cursor `current`. `next` is a loop: it
  reads the producer under the cursor, and either returns its value and
  advances the cursor cyclically, or removes the exhausted producer and
  renormalises the cursor. `Altern` in `src/alternate_iterator.rs` is an older
  copy, with the same loop and a consuming builder `add`.

Every producer is modelled by the finite sequence of elements it has left.
`next` on a producer takes the front of the sequence, and `next_back` takes
the back. Each interleaver's state has a denotation `Remaining()`, the whole
output it still has to give:

- for `BiAltern`, it is built from the pure function `Interleave(a, b,
  firstNext)`;
- for `VecAltern` and `Altern`, it is `RoundRobin(iters, current)`, which
  repeats `Step`, the closed form of one `next` call.

The methods are proved against these denotations:

- `Next` returns the first element of `Remaining()` and leaves its tail;
- `NextBack` returns the last element and leaves the rest.

So any mix of `next` and `next_back` returns every element exactly once, in
the order the denotation gives, and then `None`.

The `VecAltern` loop is `VecAltern.PullNext`, a `while` loop over the list
and cursor values. Its invariant is that the state equals the list after the
first `k` producers, counted cyclically from the cursor, were found
exhausted and removed. It is proved equal to `Step`:

- the cursor invariant (`0` when the list is empty, an index otherwise) holds
  throughout, so the `panic!` on an out-of-bounds cursor cannot happen;
- every round that does not return removes a producer, so the loop ends.

`RoundRobinFair` states the round-robin order of the whole output: from
cursor 0, while every producer still has elements, the `i`-th round gives
the `i`-th element of each producer, in list order.

Files:

- `wrappers.dfy`: `Option`, and front/back access to a producer;
- `bi_altern.dfy`: module `BiAltern` (`Interleave`, size hints, class
  `BiAltern`);
- `bi_altern_examples.dfy`: the documented examples and unit tests of
  `BiAltern`, including the nested compositions;
- `vec_altern.dfy`: module `VecAltern` (`Step`, `PullNext`, `RoundRobin`,
  class `VecAltern`);
- `vec_altern_examples.dfy`: the doc example, the unit tests and the
  `altern!` expansion for `VecAltern`, call by call;
- `alternate_iterator.dfy`, `alternate_iterator_examples.dfy`: the legacy
  `Altern` and its unit test.

## Model

| member | source | states |
|---|---|---|
| BiAltern.BiAltern.constructor | src/combin_iterator/bi_altern.rs:19-25 | both producers go into present slots and the cursor names the first; the output is `Interleave(first, second, true)` |
| BiAltern.BiAltern.Next | src/altern/bi_altern.rs:126-143 | returns the first remaining element and leaves the rest. With both slots present it flips the cursor and reads the named side; if that side is exhausted it empties that slot and reads the other side, with no second flip. With one slot present it reads that slot and keeps the cursor. With none it returns `None`. An emptied slot stays empty |
| BiAltern.BiAltern.NextBack | src/combin_iterator/bi_altern.rs:76-91 | returns the last remaining element and leaves the rest. With both slots present it takes from the back of the second producer iff `len2 >= len1 + (next_is_first ? 0 : 1)`, else from the first. It never changes the cursor or which slots are present |
| BiAltern.BiAltern.SizeHint | src/combin_iterator/bi_altern.rs:51-68 | with producers that know their length, the hint is exact and equals the number of remaining elements |
| BiAltern.BiAltern.RemainingLength | src/altern/bi_altern.rs:188-190 | the remaining output has as many elements as the present slots hold together (the `len()` of `ExactSizeIterator`) |
| BiAltern.CombineHints | src/altern/bi_altern.rs:145-162 | two empty slots give exactly 0; one empty slot passes the other hint through unchanged; otherwise the lower bounds add, and the upper bound is the sum iff both are known |
| BiAltern.CombineHintsSound | src/altern/bi_altern.rs:150-160 | if each child's hint bounds its remaining count, the combined hint bounds the total |
| BiAltern.CombineHintsExact | src/combin_iterator/bi_altern.rs:94-96 | exact hints combine into an exact hint, so `len()` of the interleaver is the sum of the children's lengths |
| BiAltern.InterleaveLength | src/altern/bi_altern.rs:127-142 | the interleaved output has length the sum of the lengths of `a` and `b` |
| BiAltern.InterleaveElements | src/altern/bi_altern.rs:127-142 | the interleaved output is a permutation of both producers: no element is repeated or skipped |
| BiAltern.InterleaveSwap | src/combin_iterator/bi_altern.rs:34-41 | the two sides play symmetric roles: swapping them and negating the cursor gives the same output |
| BiAltern.InterleaveBothCons | src/altern/bi_altern.rs:128-135 | while both producers last, a round gives the head of the first side, then the head of the second |
| BiAltern.InterleaveOneLeft | src/altern/bi_altern.rs:130-139 | once one producer is exhausted, the output is the rest of the other, whatever the cursor says |
| BiAltern.InterleaveAlternates | src/altern/bi_altern.rs:199-206 | forward order: while both last, `a[i]` is output at position `2i` and `b[i]` at `2i+1` |
| BiAltern.InterleaveTail | src/combin_iterator/bi_altern.rs:105-112 | once the shorter producer is used up (after twice its length in elements), the output is the rest of the longer producer |
| BiAltern.InterleaveBackFromSecond | src/altern/bi_altern.rs:176-179 | when `len2 >= len1 + (cursor on second ? 1 : 0)`, the last element of the forward output is the second producer's last, and dropping it leaves the interleaving of the shortened producers |
| BiAltern.InterleaveBackFromFirst | src/altern/bi_altern.rs:180-182 | otherwise the last element of the forward output is the first producer's last, and dropping it leaves the interleaving of the shortened producers |
| BiAlternExamples.ForwardOrder | src/combin_iterator/bi_altern.rs:105-112 | `[1,3,5,6]` interleaved with `[2,4]` is `[1,2,3,4,5,6]` |
| BiAlternExamples.NestedThree | src/altern/bi_altern.rs:40-53 | `BiAltern(BiAltern([1,1,1,1],[2,2]),[3,3,3])` gives `[1,3,2,3,1,3,2,1,1]`, not `[1,2,3,1,2,3,1,3,1]` |
| BiAlternExamples.NestedFourAdjacentPairs | src/altern/bi_altern.rs:64-73 | `BiAltern(BiAltern(A,B),BiAltern(C,D))` visits A, C, B, D: `[1,3,2,4,1,3,2,4]` |
| BiAlternExamples.NestedFourCrossedPairs | src/altern/bi_altern.rs:75-78 | `BiAltern(BiAltern(A,C),BiAltern(B,D))` visits A, B, C, D: `[1,2,3,4,1,2,3,4]` |
| BiAlternExamples.NormalUsage | src/altern/bi_altern.rs:198-206 | forward consumption gives 1 to 6 in order, then `None` |
| BiAlternExamples.ReverseOrder | src/combin_iterator/bi_altern.rs:114-122 | consuming with `next_back` gives 6 down to 1, then `None` |
| BiAlternExamples.NextAndNextBack | src/altern/bi_altern.rs:218-232 | `next, next_back, next_back, next, next_back, next, next_back` gives 1, 6, 5, 2, 4, 3, `None` |
| BiAlternExamples.Len | src/combin_iterator/bi_altern.rs:140-148 | `len()` of the example is 6 |
| VecAltern.VecAltern.constructor | src/altern/vec_altern.rs:54-59 | an empty list with cursor 0 |
| VecAltern.VecAltern.WithCapacity | src/altern/vec_altern.rs:62-67 | the same state as `new`, whatever the capacity |
| VecAltern.VecAltern.Add | src/altern/vec_altern.rs:90-92 | appends the producer at the end; the cursor and the other producers stay; the cursor invariant is kept |
| VecAltern.VecAltern.AddAnd | src/altern/vec_altern.rs:78-81 | as `add`, and returns the interleaver itself |
| VecAltern.VecAltern.Next | src/altern/vec_altern.rs:103-131 | the new state and the result are `Step` of the old state; the result is the first element of the remaining output and the state denotes the rest; the cursor invariant is kept |
| VecAltern.PullNext | src/altern/vec_altern.rs:104-130 | the loop ends, never indexes out of bounds, and computes exactly `Step` |
| VecAltern.Step | src/altern/vec_altern.rs:104-107 | returns `None` iff every producer is exhausted, and then leaves an empty list with cursor 0; the cursor stays in bounds |
| VecAltern.StepTakesFirstLive | src/altern/vec_altern.rs:109-127 | on a value: it is the head of the first live producer found cyclically from the cursor. The exhausted producers passed, and no others, are removed, and the rest keep their order. The cursor moves one past the producer read |
| VecAltern.StepAtLive | src/altern/vec_altern.rs:118-121 | when the producer under the cursor is live: its head is returned, nothing is removed and the cursor advances cyclically |
| VecAltern.StepPastExhausted | src/altern/vec_altern.rs:123-126 | when the producer under the cursor is exhausted and the next one is live: the first is removed, the next one's head is returned and the cursor advances in the shortened list |
| VecAltern.StepTotalLen | src/altern/vec_altern.rs:118-127 | each returned value takes exactly one element out of the producers; a `None` finds none left |
| VecAltern.RoundRobinLength | src/altern/vec_altern.rs:9 | the whole output has as many elements as all producers together |
| VecAltern.RoundFrom | src/altern/vec_altern.rs:118-121 | while the producers from the cursor to the end of the list are all live, the output starts with their heads in list order, then continues from cursor 0 with each of those producers one element shorter |
| VecAltern.RoundsPrefix | src/altern/vec_altern.rs:9 | while every producer has at least `m` elements, the output from cursor 0 is `m` full rounds followed by the output of what is left |
| VecAltern.RoundRobinFair | src/altern/vec_altern.rs:9 | from cursor 0, while every producer has at least `m` elements, the element at position `i * n + j` of the output (`n` producers, `i < m`) is the `i`-th element of producer `j`: each round takes one element from every producer, in list order |
| VecAltern.FirstLive | src/altern/vec_altern.rs:104-127 | the number of exhausted producers met cyclically from the cursor before a live one, or the list length when there is none |
| VecAltern.AfterSkipping | src/altern/vec_altern.rs:123-126 | removing `k` producers cyclically from the cursor shortens the list by `k` and puts the producer `k` places on under a cursor in bounds |
| VecAltern.AdvanceIsMod | src/altern/vec_altern.rs:120 | cyclic advance is `(current + 1) % len` |
| VecAlternExamples.DrainExample | src/altern/vec_altern.rs:25 | `[1,4,7,9]`, `[2,5]`, `[3,6,8]` with cursor 0 give 1 to 9, then `None` |
| VecAlternExamples.BuilderOrder | src/altern/vec_altern.rs:139-147 | built with `add_and`, the example gives 1 to 9, then `None` |
| VecAlternExamples.AddOrder | src/altern/vec_altern.rs:20-25 | built with `add`, the example gives 1 to 9, then `None` |
| VecAlternExamples.MacroExpansion | src/macros.rs:26-37 | `with_capacity(3)` followed by an `add` per producer gives the same order |
| VecAlternExamples.AllEmpty | src/altern/vec_altern.rs:150-158 | three exhausted producers give `None` at the first call |
| AlternateIterator.Altern.constructor | src/alternate_iterator.rs:72-77 | an empty list with cursor 0 |
| AlternateIterator.Altern.Add | src/alternate_iterator.rs:88-91 | consumes the interleaver, appends the producer at the end and returns it; the cursor and the other producers stay |
| AlternateIterator.Altern.Next | src/alternate_iterator.rs:102-131 | the same round-robin step as `VecAltern`: the result and new state are `Step` of the old state, the result is the first remaining element, and the cursor invariant is kept, so the `panic!` is unreachable |
| AlternateIteratorExamples.BuilderOrder | src/alternate_iterator.rs:140-149 | built with the `add` builder, the example gives 1 to 9, then `None` |

## Left out

- Generic producers: only finite, fused producers are modelled, as sequences
  of remaining elements. Infinite producers and producers that yield again
  after `None` are not.
- `BiAltern.BiAltern.SizeHint`: states only the case where both producers
  report their exact length, as slice iterators do. Arbitrary child hints are
  covered by `BiAltern.CombineHintsSound` on the pure combination.
- `BiAltern.CombineHints`: counts are `nat`, so the `usize` overflow of
  `hint1.0 + hint2.0` and `u1 + u2` is not modelled.
- `VecAltern.PullNext`: the cursor is a `nat`. `current + 1` cannot overflow
  in the source, because `current` is below the list length.
- `DoubleEndedIterator` and `ExactSizeIterator` trait bounds: these are
  replaced by finite sequences, whose length and back are always available.
  The two `BiAltern` copies differ only in these bounds.
- Lifetimes, `Box<dyn Iterator>` type erasure and the move semantics of the
  builders: no aliasing is modelled beyond "the builder returns this object".
- `Vec::with_capacity`: the capacity has no observable effect and is
  ignored.
- `collect()`: the examples are modelled as call-by-call traces, not as one
  call that gathers the whole output.
- `AlternWith::altern_with` at src/altern/bi_altern.rs:83-95: a one-line
  wrapper around `new`. Its doc examples are those of `ForwardOrder`
  (src/altern/bi_altern.rs:28-30) and `NestedThree` (src/altern/bi_altern.rs:57-61).
- The `altern!` and `count_exprs!` macros at src/macros.rs: compile-time
  sugar. Only their expansion is modelled, in
  `VecAlternExamples.MacroExpansion`.
- The always-panicking `todo!()` test at src/alternate_iterator.rs:163-166.
- src/altern.rs and the benches: module re-exports and timing harnesses.
- Exhausted slots and `next_back`: `next_back` never sets a slot to `None`,
  even when it finds a side exhausted (src/altern/bi_altern.rs:170-184); only
  `next` empties slots, and the model follows that.
