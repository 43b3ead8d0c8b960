/** JavaScript numbers as the catalogue compares them: a real, or one of the two infinities.
    NaN is not represented; the one place where the page relies on NaN (an undefined
    average float) is modelled with an Option instead. */
module ExtReals {

  datatype ExtReal = NegInf | Finite(value: real) | PosInf

  /** `a <= b` on JavaScript numbers other than NaN. */
  predicate Le(a: ExtReal, b: ExtReal) {
    a.NegInf? || b.PosInf? || (a.Finite? && b.Finite? && a.value <= b.value)
  }

  lemma LeTotal(a: ExtReal, b: ExtReal)
    ensures Le(a, b) || Le(b, a)
  {
  }

  lemma LeTransitive(a: ExtReal, b: ExtReal, c: ExtReal)
    requires Le(a, b) && Le(b, c)
    ensures Le(a, c)
  {
  }
}
