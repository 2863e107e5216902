/** The validators and comparators of the LP entity all compute their result
    the same way: a flag starts true and each check, in order, updates it to
    `check && flag`.  This module models that accumulation once. */
module Flags {

  /** The flag after every check in `checks` has been folded in, first to last:
      true exactly when every check holds, that is, when none of them fails. */
  function Accumulate(checks: seq<bool>): (ok: bool)
    ensures ok <==> forall i :: 0 <= i < |checks| ==> checks[i]
    ensures ok <==> false !in checks
  {
    if checks == [] then true
    else checks[|checks| - 1] && Accumulate(checks[..|checks| - 1])
  }
}
