/**
 * How the two `parse` methods of parser.py end: `return 0`, `return 1`, or a
 * Python exception that escapes the method.
 */
module Outcomes {
  import opened Grammars

  /** The Python exceptions a parse can raise. */
  datatype Error = KeyError | TypeError | IndexError | NameError

  datatype Outcome =
    | Accept                // `result = 0`: a START handle was reduced
    | Reject                // no action for the lookahead: `result` stays 1
    | Inconsistent          // a "should NOT happen" branch: `result` stays 1
    | Conflict              // LR(1): a table entry the policy cannot resolve: `result` stays 1
    | Crash(error: Error)   // an exception escapes `parse`
    | OutOfFuel             // the step bound of the model ran out

  /** The value `parse` returns; None when it raises or the model's step bound runs out. */
  function ReturnCode(o: Outcome): Option<int>
  {
    match o
    case Accept => Some(0)
    case Reject => Some(1)
    case Inconsistent => Some(1)
    case Conflict => Some(1)
    case Crash(_) => None
    case OutOfFuel => None
  }

  /** Python's `s[-k:]`: the last k elements, but the whole list when k is 0 or exceeds |s|. */
  function PyTail<T>(s: seq<T>, k: nat): seq<T>
  {
    if k == 0 || k > |s| then s else s[|s| - k..]
  }
}
