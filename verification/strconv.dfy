/** The two functions of Go's `strconv` package that give the ACL payload's
    `acc` field its meaning. */
module Strconv {
  import opened Wrappers

  /** `strconv.FormatBool`. */
  function FormatBool(b: bool): string
  {
    if b then "true" else "false"
  }

  /** `strconv.ParseBool`: the spellings Go accepts for each truth value;
      anything else is a syntax error. */
  function ParseBool(s: string): Option<bool>
  {
    if s in ["1", "t", "T", "true", "TRUE", "True"] then Some(true)
    else if s in ["0", "f", "F", "false", "FALSE", "False"] then Some(false)
    else None
  }

  /** A decision service reading `acc` back recovers the access kind. */
  lemma FormatBoolRoundTrip(b: bool)
    ensures ParseBool(FormatBool(b)) == Some(b)
  {
  }
}
