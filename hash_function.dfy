/** The hash capability used by Merkle trees and by Hash gates.
    A hash takes two integers and returns one; it holds no state, so it is
    modelled as a pure function value rather than an object. */
module HashFunctions {

  /** Any hash the system can be configured with. */
  type HashFunction = (int, int) -> int

  /** The additive stand-in hash. */
  function SimpleAddHash(a: int, b: int): int
  {
    a + b
  }

  /** The "custom" hash, numerically identical to addition. */
  function CustomHash(a: int, b: int): int
  {
    a + b
  }

  ghost predicate Commutative(hash: HashFunction)
  {
    forall a: int, b: int :: hash(a, b) == hash(b, a)
  }

  /** Both reference hashes are addition, so they agree on every pair. */
  lemma InstancesAgree(a: int, b: int)
    ensures SimpleAddHash(a, b) == a + b
    ensures CustomHash(a, b) == a + b
    ensures SimpleAddHash(a, b) == CustomHash(a, b)
  {
  }

  /** Both reference hashes ignore the order of their operands. */
  lemma InstancesCommutative()
    ensures Commutative(SimpleAddHash)
    ensures Commutative(CustomHash)
  {
  }
}
