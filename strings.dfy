/** String predicates shared by the intent classifier and the scraper. */
module Strings {

  /** `s.startswith(p)`: `p` is a prefix of `s`. */
  predicate StartsWith(s: string, p: string)
  {
    |p| <= |s| && s[..|p|] == p
  }
}
