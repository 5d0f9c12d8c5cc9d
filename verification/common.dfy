/** Values shared by every part of the dashboard model. */
module Common {

  datatype Option<T> = None | Some(value: T)

  /**
    A JavaScript number as the dashboard produces it. Every number it extracts
    comes from `parseFloat` over a run of digits and dots, so it is either a
    finite decimal or NaN (the result for a run such as "."). Floating-point
    rounding is not modelled: a finite number is the exact decimal it spells.
   */
  datatype JsNumber = Finite(value: real) | NaN

  /** JavaScript `n >= bound`: false whenever `n` is NaN. */
  predicate AtLeast(n: JsNumber, bound: real) {
    n.Finite? && n.value >= bound
  }

  /** JavaScript `n <= bound`: false whenever `n` is NaN. */
  predicate AtMost(n: JsNumber, bound: real) {
    n.Finite? && n.value <= bound
  }
}
