/** The optional value that Rust's `Option` stands for, and the two views of a
    finite producer that the interleavers rely on: taking from the front
    (`Iterator::next`) and taking from the back (`DoubleEndedIterator::next_back`). */
module Wrappers {

  datatype Option<+T> = None | Some(value: T)

  /** What `next` on a producer whose remaining elements are `s` returns. */
  function Front<T>(s: seq<T>): (r: Option<T>)
    ensures r.None? <==> s == []
    ensures r.Some? ==> r.value == s[0]
  {
    if s == [] then None else Some(s[0])
  }

  /** What a producer holds after `next`: an exhausted producer stays exhausted. */
  function Rest<T>(s: seq<T>): (r: seq<T>)
    ensures s == [] ==> r == []
    ensures s != [] ==> [s[0]] + r == s
  {
    if s == [] then [] else s[1..]
  }

  /** What `next_back` on a producer whose remaining elements are `s` returns. */
  function Back<T>(s: seq<T>): (r: Option<T>)
    ensures r.None? <==> s == []
    ensures r.Some? ==> r.value == s[|s| - 1]
  {
    if s == [] then None else Some(s[|s| - 1])
  }

  /** What a producer holds after `next_back`. */
  function DropBack<T>(s: seq<T>): (r: seq<T>)
    ensures s == [] ==> r == []
    ensures s != [] ==> r + [s[|s| - 1]] == s
  {
    if s == [] then [] else s[..|s| - 1]
  }
}
