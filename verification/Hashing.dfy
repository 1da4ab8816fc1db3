// What is assumed of hash functions.
module Hashing {

  /** No two of the contents at hand have the same digest. */
  ghost predicate NoCollisions<T(!new), H(!new)>(hash: T -> H, contents: set<T>) {
    forall a, b {:trigger hash(a), hash(b)} :: a in contents && b in contents && hash(a) == hash(b) ==> a == b
  }
}
