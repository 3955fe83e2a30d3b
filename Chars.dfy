/** Character classes shared by the statement readings and the request schemas. */
module Chars {
  /** An ASCII decimal digit: `[0-9]`, and also JavaScript's `\d`. */
  predicate IsDigit(c: char) { '0' <= c <= '9' }
}
