/** Types and sequence helpers shared by every other module. */
module Basics {

  datatype Option<+T> = None | Some(value: T) {
    function GetOr(default: T): T {
      match this
      case None => default
      case Some(v) => v
    }
  }

  /** The answer of a call into the cluster or the file system that may fail. */
  datatype Result<+T> = Success(value: T) | Failure

  /** Instants and durations, in nanoseconds. */
  type Time = int

  const MINUTE: Time := 60_000_000_000
  const HOUR: Time := 60 * MINUTE

  /** Applies f to every element in order and joins the results. */
  function FlatMap<A, B>(f: A -> seq<B>, xs: seq<A>): seq<B> {
    if xs == [] then [] else FlatMap(f, xs[..|xs| - 1]) + f(xs[|xs| - 1])
  }

  function Count<T>(p: T -> bool, xs: seq<T>): nat {
    if xs == [] then 0 else Count(p, xs[..|xs| - 1]) + (if p(xs[|xs| - 1]) then 1 else 0)
  }

  lemma {:induction false} CountConcat<T>(p: T -> bool, xs: seq<T>, ys: seq<T>)
    ensures Count(p, xs + ys) == Count(p, xs) + Count(p, ys)
  {
    if ys == [] {
      assert xs + ys == xs;
    } else {
      CountConcat(p, xs, ys[..|ys| - 1]);
      assert (xs + ys)[..|xs + ys| - 1] == xs + ys[..|ys| - 1];
    }
  }
}
