# cron_parser field parser, modelled in Dafny

This project models `parse_cron.go`, the single-line crontab parser of
cron_parser. The parser does two things:

- It splits a line such as `*/15 0 1,15 * 1-5 /usr/bin/find` into five field
  tokens and a command.
- It expands each token into the list of integers it denotes, using the
  field's domain: minute 0-59, hour 0-23, day of month 1-31, month 1-12,
  day of week 1-7.

`parseNumDef` turns one token into a list. It tries the shapes in this order:
step `*/N`, range `A-B`, list `N1,N2,...`, the wildcard `*`, and finally a
bare integer. The four generators `genStarList`, `genDashList`,
`genCommaList` and `genFullList` each build their list by appending inside a
loop.

Layout:

- `outcomes.dfy` (`Outcomes`): the `Result`/`Option` types. There is one
  error kind per error-return site of the Go code.
- `text.dfy` (`Text`): the standard-library calls the parser depends on,
  namely `strconv.Atoi`, `strconv.Itoa`, `strings.Split`, `strings.Join` and
  `strings.TrimLeft`. It also holds their round-trip lemmas.
- `generators.dfy` (`Generators`): each generator appears twice.
  - A function states what the generator returns.
  - A method with a loop follows the Go code and is proved to return exactly
    that function's value.
  - Lemmas state the set-level meaning of each function: multiples, a
    contiguous run, elements in input order.
- `num_def.dfy` (`NumDef`): the dispatcher `parseNumDef`, one lemma each
  for the step, range, list and `*` shapes, and the five field parsers. The
  bare-integer case is stated by `ParseNumDef`'s own contract.
- `cron_line.dfy` (`CronParser`): the line splitter, `parseCronLine` as a
  function returning the first field error, and `joinInts`.
- `scenarios.dfy` (`Scenarios`): concrete tokens and lines that show how the
  code behaves as written.

The model follows the code as written. A reader might expect range bounds
to be read as whole numbers and singletons to be checked against the
domain; the code does neither:

- A range reads only the first and last character of its token. `"10-12"`
  means `[1, 2]`, and `"1-59"` in the hour field means 1 to 9.
- A bare integer is never checked against its domain. `"1000"` in the hour
  field and `"-5"` in the minute field are accepted.

## Model

| member | source | states |
|---|---|---|
| Text.Atoi | parse_cron.go:213 | `strconv.Atoi` as the parser meets it: an optional sign followed by one or more ASCII digits, anything else a non-number |
| Text.Itoa | parse_cron.go:75 | `strconv.Itoa`: the decimal digits of the magnitude, no leading zero, with `-` in front of a negative |
| Text.AtoiItoa | parse_cron.go:74-76 | `Atoi` reads back exactly the integer `Itoa` wrote, and `Itoa` writes only digits and `-` |
| Text.NatDigits | parse_cron.go:75 | the decimal spelling of a natural number is a digit run whose value is that number, one digit exactly below 10, and with no leading zero above 9 |
| Text.Split | parse_cron.go:154 | `strings.Split` gives at least one piece, no piece contains the separator, and the first piece is a prefix of the input |
| Text.Join | parse_cron.go:78 | `strings.Join`: the pieces in order with the separator between each two |
| Text.JoinSplit | parse_cron.go:154 | joining the pieces of a split with the separator gives back the input |
| Text.SplitJoin | parse_cron.go:78 | splitting a join of separator-free pieces gives back the pieces |
| Text.TrimLeft | parse_cron.go:85 | `strings.TrimLeft` drops exactly the longest prefix of cut-set characters: the result is a suffix, everything dropped is in the cut set, and the result does not start with one |
| Text.SplitDigitRuns | parse_cron.go:193-201 | a token of two or more digit runs split by a separator holds only digits and that separator, contains it, and starts and ends with a digit |
| Generators.GoRem | parse_cron.go:95 | Go's `%`: the remainder takes the sign of the dividend, is smaller than the divisor in magnitude, and agrees with Euclidean `%` on a non-negative dividend and a positive divisor |
| Generators.IntervalMembers | parse_cron.go:175-177 | the contiguous run `lo..hi` holds exactly the integers from `lo` to `hi`, strictly ascending |
| Generators.GenFullList | parse_cron.go:172-180 | `genFullList` returns `start, start+1, ..., limit` (length `limit - start + 1`, empty when `limit < start`) |
| Generators.MultiplesInMembers | parse_cron.go:94-99 | filtering by zero Go remainder keeps exactly the multiples, and keeps an ascending list ascending |
| Generators.MultiplesMembers | parse_cron.go:94-99 | the step loop's list holds exactly the `i` in `[lo, hi]` with `i % n == 0` (Go remainder), strictly ascending |
| Generators.StarList | parse_cron.go:82-102 | what `genStarList` returns: the non-number error, then the zero-interval error, otherwise the domain values with zero Go remainder |
| Generators.StarListSpec | parse_cron.go:82-102 | for `*/N`, N = 0 gives the interval-zero error; N > 0 gives exactly the domain values with zero remainder, strictly ascending |
| Generators.GenStarList | parse_cron.go:82-102 | the loop of `genStarList` returns the step specification, with the non-number and zero-interval errors checked first |
| Generators.GetFirst | parse_cron.go:104-109 | `getFirst` is the one-character string of the first character |
| Generators.GetLast | parse_cron.go:111-116 | `getLast` is the one-character string of the last character |
| Generators.DashList | parse_cron.go:118-149 | what `genDashList` returns: reads the first and last character, then the errors in source order, otherwise the run between them |
| Generators.DashListSpec | parse_cron.go:118-149 | only the first and last digits decide a range; errors in the order first < start, last > limit, first > last; otherwise the contiguous run between them |
| Generators.GenDashList | parse_cron.go:118-149 | the loop of `genDashList` returns the range specification, with the same checks in the same order |
| Generators.ElementCheck | parse_cron.go:157-166 | one list element passes exactly when it is an integer within `[start, limit]`, and then yields its value |
| Generators.CommaList | parse_cron.go:151-170 | what `genCommaList` returns: the comma-separated pieces checked in order by `ElementCheck` |
| Generators.CheckElementsErrorSticks | parse_cron.go:158-166 | once an element fails, the list's outcome is that failure, whatever follows |
| Generators.CheckElementsSpec | parse_cron.go:151-170 | a list succeeds exactly when every element passes, with one value per element in input order; otherwise the error is that of the first failing element |
| Generators.GenCommaList | parse_cron.go:151-170 | the loop of `genCommaList`, with its early returns, yields the list specification |
| NumDef.IsStepToken | parse_cron.go:186 | `^\*\/\d+$`: `*/` followed by one or more digits |
| NumDef.IsRangeToken | parse_cron.go:193 | `^\d+-\d+$`: two digit runs around one `-` |
| NumDef.IsListToken | parse_cron.go:201 | `^\d+(,\d+)+$`: two or more digit runs separated by `,` |
| NumDef.ShapesExclusive | parse_cron.go:186-217 | the step, range, list and `*` shapes exclude each other and exclude an `Atoi` integer |
| NumDef.ParseNumDef | parse_cron.go:182-222 | a non-integer token that succeeds yields only values in the domain; an integer token yields `[n]` unchecked; a format error occurs exactly for tokens of no recognised shape that are not integers |
| NumDef.StepField | parse_cron.go:186-191 | a step token yields the zero-interval error for N = 0, and otherwise exactly the domain values with zero Go remainder, ascending |
| NumDef.StepFieldMultiples | parse_cron.go:94-99 | on a non-negative domain a step field holds exactly the multiples of N, so a domain starting at 1 holds 1 only when N = 1 |
| NumDef.RangeField | parse_cron.go:193-198 | a range token is decided by its first and last characters: the three errors in order, otherwise the run `first..last` |
| NumDef.ElementReads | parse_cron.go:157-166 | a digit run passes the element checks by its decimal value, failing low or high |
| NumDef.DigitElements | parse_cron.go:156-168 | digit-run elements succeed exactly when all are in the domain, with their values in order; otherwise the first value out of the domain decides the error |
| NumDef.ListDispatch | parse_cron.go:201-206 | a list token goes to the list generator |
| NumDef.ListField | parse_cron.go:200-206 | a list token succeeds exactly when every element is in the domain, returning the values in input order and count; otherwise the first element outside the domain decides the error |
| NumDef.WildcardField | parse_cron.go:208-211 | `*` never fails and yields `start..limit`, of length `limit - start + 1` |
| NumDef.ParseMinute | parse_cron.go:224-236 | minutes: non-singleton values lie in 0-59, a singleton passes unchecked, `*` gives 60 values |
| NumDef.ParseHours | parse_cron.go:238-249 | hours: non-singleton values lie in 0-23, a singleton passes unchecked, `*` gives 24 values |
| NumDef.ParseDayOfMonth | parse_cron.go:251-262 | days of month: non-singleton values lie in 1-31, a singleton passes unchecked, `*` gives 31 values |
| NumDef.ParseMonth | parse_cron.go:264-275 | months: non-singleton values lie in 1-12, a singleton passes unchecked, `*` gives 12 values |
| NumDef.ParseDayOfWeek | parse_cron.go:277-288 | days of week: non-singleton values lie in 1-7, a singleton passes unchecked, `*` gives 7 values |
| CronParser.IsSpace | parse_cron.go:19 | `\s` of Go's regular expressions: space, tab, newline, form feed, carriage return |
| CronParser.SpanNonSpace | parse_cron.go:19 | the greedy `\S+` prefix: whitespace-free and followed by whitespace or the end |
| CronParser.SpanSpace | parse_cron.go:19 | the greedy `\s+` prefix: all whitespace and followed by a non-space or the end |
| CronParser.NextToken | parse_cron.go:19 | one `(\S+)\s+`: matches exactly when the text starts with a non-space and holds whitespace, and then cuts it into a non-empty token, a non-empty whitespace run and a rest that does not start with whitespace |
| CronParser.NextTokenOf | parse_cron.go:19 | a token, any whitespace run and a tail that does not start with whitespace are cut exactly there |
| CronParser.Groups | parse_cron.go:19-32 | a successful split gives the requested number of tokens, and the line is exactly those non-empty whitespace-free tokens, each followed by a non-empty whitespace run, then a non-empty command that does not start with whitespace and holds no newline |
| CronParser.SplitLine | parse_cron.go:19-32 | the line expression with its five token groups and the command group |
| CronParser.GroupsSpaced | parse_cron.go:19-32 | tokens and a command, each token followed by any non-empty whitespace run, split back into exactly those tokens and that command |
| CronParser.SplitLineSpec | parse_cron.go:19-32 | the line format as an if-and-only-if: a line splits into five tokens and a command exactly when it is those five non-empty whitespace-free tokens, each followed by a non-empty whitespace run, and then a non-empty command that does not start with whitespace and holds no newline |
| CronParser.ParseCronLine | parse_cron.go:17-58 | a line that does not split is a format error; otherwise it parses exactly when all five fields parse, yielding their values and the command, and fails with the error of the first failing field in the order minute, hour, day of month, month, day of week |
| CronParser.JoinInts | parse_cron.go:70-80 | the values written with `Itoa` and joined by spaces; for a non-empty list, splitting the text on spaces and reading each piece gives the values back; the empty list (which `*/32` in the day-of-month field produces) gives `""` |
| Scenarios.RangeTenToTwelve | parse_cron.go:118-146 | `"10-12"` over 0-59 yields `[1, 2]` |
| Scenarios.RangeOneToFiftyNine | parse_cron.go:118-146 | `"1-59"` in the hour field yields 1 to 9 and no error |
| Scenarios.DaysOneToFive | parse_cron.go:277-288 | `"1-5"` in the day-of-week field yields 1 to 5 |
| Scenarios.SingletonIsUnchecked | parse_cron.go:213-221 | `"1000"` for hours, `"0"` for day of month and `"-5"` for minutes are accepted as one-element lists |
| Scenarios.Zeros | parse_cron.go:213-221 | `"0"` is accepted by every field parser, including those whose domain starts at 1 |
| Scenarios.Wildcards | parse_cron.go:208-211 | `"*"` parses in every field |
| Scenarios.SlashFifteenUnrecognised | parse_cron.go:213-217 | `"/15"` is the invalid-definition error |
| Scenarios.LetterUnrecognised | parse_cron.go:213-217 | `"a"` is the invalid-definition error |
| Scenarios.StepSkipsDomainStart | parse_cron.go:94-99 | `"*/5"` for day of month holds 5 but not the domain start 1 |
| Scenarios.EveryFifteen | parse_cron.go:82-102 | `"*/15"` over 0-59 yields the multiples of 15, ascending |
| Scenarios.QuarterHours | parse_cron.go:224-236 | `"*/15"` in the minute field yields `[0, 15, 30, 45]` |
| Scenarios.FirstAndFifteenth | parse_cron.go:151-170 | `"1,15"` in the day-of-month field yields `[1, 15]` |
| Scenarios.EveryMonth | parse_cron.go:264-275 | `"*"` in the month field yields 1 to 12 |
| Scenarios.AscendingUnique | parse_cron.go:94-99 | two strictly ascending lists with the same members are equal, so a step result is determined by its member set |
| Scenarios.LineOf | parse_cron.go:17-58 | a line of five tokens and a command, separated by any whitespace runs, whose five fields parse yields the line of their values and the command |
| Scenarios.IntegerFieldsAccepted | parse_cron.go:34-58 | a line of five integer tokens, separated by any whitespace runs, always parses, whatever the values, e.g. `0 1000 0 0 0 /usr/bin/find` |
| Scenarios.MinuteFails | parse_cron.go:34-38 | when the minute token fails, the line fails with its error whatever the other tokens and separators are |

## Left out

- `main`, `printHelp`, the `Printf` table and the `os.Exit` calls are process input and output. `ParseCronLine` returns the first field error instead of printing it and exiting.
- The Go `regexp` engine is not modelled. The token guards are written as predicates over characters (`IsStepToken`, `IsRangeToken`, `IsListToken`). The line expression is written as a greedy splitter (`Groups`).
- CronParser.Groups, CronParser.SplitLine and CronParser.SplitLineSpec: a command made only of whitespace is rejected. Go's backtracking would accept a line such as `a b c d e \t`, taking the last whitespace character as the command.
- Text.Atoi: has no 64-bit range error, because Dafny integers are unbounded. So a token whose number does not fit in 64 bits reads as a number where Go's `Atoi` fails:
  - the non-number error of a step interval can only come from that overflow, so it is not reachable from `ParseNumDef`;
  - an overflowing bare integer such as `"99999999999999999999"` is the invalid-definition error in Go, and the model accepts it as a one-element list;
  - an overflowing list element is the element-not-a-number error in Go, and the model reports it as above the limit.
- Error message text is not modelled. Each error is a distinct kind that carries the values the message would print.
- The partial list returned alongside an error is not modelled. `genCommaList` returns the elements accepted before the failing one (the other generators fail before their loops and return nothing). `parseNumDef` and the field parsers pass that list on with the error, and `parseCronLine` discards it. `ParseNumDef` and the field parsers return only the error.
- parse_cron_test.go is not part of this model. It calls `parseCronLine` with two results, which does not match the one-result function in parse_cron.go. It also expects lines that the unchecked singleton branch accepts to fail.
- Generators.GetFirst: requires a non-empty token. On `""`, Go's `strings.Split("", "")` returns an empty slice and the indexing panics; the range guard passes only tokens of at least three characters, so that case cannot arise.
- Generators.GetLast: requires a non-empty token, for the same reason as `GetFirst`.
