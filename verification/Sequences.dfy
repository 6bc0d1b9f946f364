/** Facts about sequences that the verifier is better told than left to find. */
module Sequences {

  lemma Associate<T>(x: seq<T>, y: seq<T>, z: seq<T>)
    ensures (x + y) + z == x + (y + z)
  {
  }

  /** A loop that has reached `i` stands at the first of the rest. */
  lemma RestAt<T>(x: seq<T>, i: nat)
    requires i < |x|
    ensures x[i..] != [] && x[i..][0] == x[i] && x[i..][1..] == x[i + 1..]
  {
  }

  lemma SliceGrows<T>(x: seq<T>, i: nat, j: nat)
    requires i <= j < |x|
    ensures x[i..j] + [x[j]] == x[i..j + 1]
  {
  }
}
