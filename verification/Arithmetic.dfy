/** Products that the linear solver does not compare on its own. */
module Arithmetic {

  lemma TimesMonotone(a: int, b: int, c: nat)
    ensures a <= b ==> a * c <= b * c
  {
  }

  lemma TimesLess(a: int, b: int, c: nat)
    ensures a < b ==> a * c + c <= b * c
  {
    TimesMonotone(a + 1, b, c);
    TimesNext(a, c);
  }

  lemma TimesNext(a: int, c: nat)
    ensures (a + 1) * c == a * c + c
  {
  }
}
