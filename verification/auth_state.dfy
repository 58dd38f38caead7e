/** The shared result type both platform coordinators publish to the UI. */
module Auth {

  /** Exactly one of four states; equality is structural, as for Kotlin objects and data classes. */
  datatype AuthState = Initial | Loading | Success(authCode: string) | Error(message: string) {

    /** A state that ends an attempt; the UI offers "Logout" / "Try Again" only from these. */
    predicate IsTerminal() {
      Success? || Error?
    }
  }

  /** The four variants are exhaustive and mutually exclusive. */
  lemma ExactlyOneVariant(s: AuthState)
    ensures s.Initial? || s.Loading? || s.Success? || s.Error?
    ensures !(s.Initial? && s.Loading?) && !(s.Success? && s.Error?)
    ensures s.IsTerminal() <==> !(s.Initial? || s.Loading?)
  {
  }

  /** Success and Error carry one string each and compare by it. */
  lemma StructuralEquality(a: string, b: string)
    ensures Success(a) == Success(b) <==> a == b
    ensures Error(a) == Error(b) <==> a == b
    ensures Success(a) != Error(b)
  {
  }
}
