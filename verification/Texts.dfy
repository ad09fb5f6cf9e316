/** A fact about strings that the solver does not use unasked. */
module Texts {
  lemma Associative(a: string, b: string, c: string)
    ensures (a + b) + c == a + (b + c)
  {
  }
}
