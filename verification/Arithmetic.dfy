/** Facts about products that the solver does not find on its own. */
module Arithmetic {

  lemma TimesMonotone(d: nat, x: nat, y: nat)
    requires x <= y
    ensures d * x <= d * y
  {
  }
}
