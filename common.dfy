/** Values shared by every module: JavaScript's `null`/`undefined` and its truthiness rules. */
module Common {

  /** A value that may be absent (`null` or `undefined` in the source). */
  datatype Option<T> = None | Some(value: T)

  /** A string in a boolean position (`if (s)`, `s ? … : …`, `!s`): only a present, non-empty string is true. */
  predicate TruthyText(s: Option<string>) {
    s.Some? && s.value != ""
  }

  /** A number in a boolean position: only a present, non-zero number is true (NaN is modelled as absence). */
  predicate TruthyNumber(n: Option<int>) {
    n.Some? && n.value != 0
  }
}
