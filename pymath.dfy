/** The three entries of Python's `math` module that the loop equations use:
    `pi`, `sqrt` and `log10`. Their numerical definitions are not part of this
    model; a `MathLib` value stands for them, and `Sound()` states the only facts
    the model relies on. */
module PyMath {

  datatype MathLib = MathLib(pi: real, sqrt: real -> real, log10: real -> real)
  {
    /** pi is positive; sqrt is non-negative on its domain and positive on
        positive arguments. Nothing is assumed about log10. */
    ghost predicate Sound() {
      && pi > 0.0
      && (forall x :: x >= 0.0 ==> sqrt(x) >= 0.0)
      && (forall x :: x > 0.0 ==> sqrt(x) > 0.0)
    }
  }
}
