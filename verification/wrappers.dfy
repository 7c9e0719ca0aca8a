/** Option and Result, the failure-carrying shapes the rest of the model uses. */
module Wrappers {

  /** A value that may be absent; stands for Go's nil pointers and nil errors. */
  datatype Option<+T> = None | Some(value: T)

  /** A computation that yields a value or fails with an error. */
  datatype Result<+R, +E> = Success(value: R) | Failure(error: E)
}

/** Go's `time` quantities, as integers. */
module GoTime {

  /** A `time.Duration`: a number of nanoseconds. */
  type Duration = int

  /** A `time.Time`: nanoseconds since an epoch; 0 stands for the zero `time.Time{}`. */
  type Time = int

  const Second: Duration := 1_000_000_000
}

/**
 The functional-options pattern: a constructor builds a default record and then
 lets every option rewrite it, in the order given.
 */
module FunctionalOptions {

  /** Applies `options` to `init` from first to last (Go's `for _, option := range options`). */
  function ApplyAll<S>(options: seq<S -> S>, init: S): S
    decreases |options|
  {
    if |options| == 0 then init else ApplyAll(options[1..], options[0](init))
  }

  /** Appending an option means applying it after all the others: the last writer wins. */
  lemma {:induction false} ApplyAllSnoc<S>(options: seq<S -> S>, last: S -> S, init: S)
    ensures ApplyAll(options + [last], init) == last(ApplyAll(options, init))
    decreases |options|
  {
    if |options| == 0 {
      assert options + [last] == [last];
    } else {
      assert (options + [last])[1..] == options[1..] + [last];
      ApplyAllSnoc(options[1..], last, options[0](init));
    }
  }

  /** Two option lists applied one after the other act like their concatenation. */
  lemma {:induction false} ApplyAllConcat<S>(first: seq<S -> S>, second: seq<S -> S>, init: S)
    ensures ApplyAll(first + second, init) == ApplyAll(second, ApplyAll(first, init))
    decreases |first|
  {
    if |first| == 0 {
      assert first + second == second;
    } else {
      assert (first + second)[1..] == first[1..] + second;
      ApplyAllConcat(first[1..], second, first[0](init));
    }
  }
}
