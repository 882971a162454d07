/** Results and error kinds shared by the cron field parser.
    The Go code returns `([]int, error)` pairs; here a parse either
    succeeds with a value or fails with one of the error kinds below,
    one per `return ..., err` site of parse_cron.go. */
module Outcomes {

  datatype Option<T> = None | Some(value: T)

  /** One constructor per distinct error the parser can report. */
  datatype CronError =
    // the line does not split into five fields and a command
    | LineFormat
    // step `*/N`: the interval is not a number, or it is zero
    | IntervalNotNumber(interval: string)
    | IntervalZero
    // range `A-B`: the first or last character is not a number,
    // the first is below the domain, the last above it, or first > last
    | FirstNotNumber(first: string)
    | LastNotNumber(last: string)
    | FirstBelowStart(firstNum: int, start: int)
    | LastAboveLimit(lastNum: int, limit: int)
    | FirstAboveLast(firstNum: int, lastNum: int)
    // list `N1,N2,...`: an element is not a number, below or above the domain
    | ElementNotNumber(element: string)
    | ElementBelowStart(num: int, start: int)
    | ElementAboveLimit(num: int, limit: int)
    // a token that matches none of the sub-grammars
    | InvalidDefinition(token: string)
  {
    /** The shape of the input is wrong, as opposed to a value in a
        recognised shape being rejected. */
    predicate IsFormatError() {
      LineFormat? || InvalidDefinition?
    }
  }

  datatype Result<T> = Ok(value: T) | Err(error: CronError)
}
