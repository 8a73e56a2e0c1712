/** Stock definitions: the option type, standing for Go's nil pointers and "comma ok"
    results, and sequences without repeats. */
module Wrappers {
  datatype Option<+T> = None | Some(value: T)

  ghost predicate Distinct<T(!new)>(xs: seq<T>) {
    forall a, b :: 0 <= a < b < |xs| ==> xs[a] != xs[b]
  }
}
