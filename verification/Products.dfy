/** Products and quotients of reals. Sums and bounds elsewhere go through `Times`,
    so that nonlinear arithmetic stays in the lemmas of this module. */
module Products {
  function Times(a: real, b: real): real {
    a * b
  }

  lemma TimesZero(a: real)
    ensures Times(a, 0.0) == 0.0
  {}

  lemma TimesNegates(a: real, b: real)
    ensures Times(a, -b) == -Times(a, b)
  {}

  lemma TimesPositive(a: real, b: real)
    requires a > 0.0 && b > 0.0
    ensures Times(a, b) > 0.0
  {}

  lemma TimesGrows(a: real, b: real, k: real)
    requires k > 0.0 && a < b
    ensures Times(a, k) < Times(b, k)
  {}

  lemma TimesLe(a: real, b: real, k: real)
    requires a <= b && k >= 0.0
    ensures Times(a, k) <= Times(b, k) && Times(k, a) <= Times(k, b)
  {}

  lemma TimesAdds(k: real, a: real, b: real)
    ensures Times(k, a + b) == Times(k, a) + Times(k, b)
  {}

  lemma TimesDifference(k: real, a: real, b: real)
    ensures Times(k, a) - Times(k, b) == Times(k, a - b)
  {}

  lemma TimesAssociates(a: real, b: real, c: real)
    ensures Times(Times(a, b), c) == Times(a, Times(b, c))
  {}

  lemma SameFactor(a: real, b: real, k: real)
    requires k > 0.0 && Times(a, k) == Times(b, k)
    ensures a == b
  {}

  lemma QuotientBack(a: real, b: real)
    requires b > 0.0
    ensures Times(a / b, b) == a
  {}

  lemma PositiveQuotient(a: real, b: real)
    requires a > 0.0 && b > 0.0
    ensures a / b > 0.0
  {}
}
