/** A nullable value: `None` stands for a null pointer in the modelled C code. */
module Wrappers {
  datatype Option<+T> = None | Some(value: T)
}

/** Facts about sequences that the proofs cite explicitly rather than leave the solver to search for. */
module Sequences {
  lemma ConcatAssoc<T>(a: seq<T>, b: seq<T>, c: seq<T>)
    ensures a + (b + c) == (a + b) + c
  {
  }
}
