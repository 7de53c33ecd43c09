/**
 Small types shared by all components.
 */
module Wrappers {
  // A value that may be missing
  datatype Option<T> = None | Some(value: T)

  // A type with one value.  A predicate that is quantified over it stays folded
  // until a proof mentions the value, which keeps large definitions out of
  // proofs that only pass them on.
  datatype Seal = Seal
}
