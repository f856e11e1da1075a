/** Shared value types: optional values stand for Go's nil, bytes for Go's []byte. */
module Prelude {
  datatype Option<+T> = None | Some(value: T)

  newtype Byte = x: int | 0 <= x < 256

  type Bytes = seq<Byte>

  /** The set of elements of a list. */
  function Elems<T>(xs: seq<T>): (s: set<T>) {
    set x | x in xs
  }

  /** A Go slice read as a list: nil has no elements. */
  function OrEmpty<T>(xs: Option<seq<T>>): (s: seq<T>) {
    if xs.Some? then xs.value else []
  }

  /** The slice that a loop of appends to a nil slice builds: nil when nothing was appended. */
  function NilIfEmpty<T>(xs: seq<T>): (s: Option<seq<T>>) {
    if xs == [] then None else Some(xs)
  }

  /** Taking the last element off the second of two lists takes it off both. */
  lemma AppendSnoc<T>(xs: seq<T>, ys: seq<T>)
    requires ys != []
    ensures var all, n := xs + ys, |ys| - 1;
            && all[..|all| - 1] == xs + ys[..n] && all[|all| - 1] == ys[n]
            && all == xs + ys[..n] + [ys[n]]
  {
  }

  lemma Snoc<T>(xs: seq<T>)
    requires xs != []
    ensures xs == xs[..|xs| - 1] + [xs[|xs| - 1]]
  {
  }

  lemma PrefixOfPrefix<T>(xs: seq<T>, n: nat, i: nat)
    requires i <= n <= |xs|
    ensures xs[..n][..i] == xs[..i]
  {
  }

  lemma SplitAt<T>(xs: seq<T>, i: nat)
    requires i < |xs|
    ensures xs == xs[..i] + [xs[i]] + xs[i + 1..]
  {
  }
}
