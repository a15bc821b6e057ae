/** The vocabulary shared by the configuration reader: its keywords, its
    errors with their messages, the `Period` and `Plan` records, and the two
    versions of the reader that the model covers. */
module ConfTypes {
  import opened Strings
  import opened Strconv

  /** The reader in the package's split files (`state.go`, `Config.go`,
      `Plan.go`) handles `include` and keeps only the first error; the older
      single-file reader (`Conf.go`) has no `include` and assigns every error
      directly. */
  datatype Variant = Current | Legacy

  const PlanKeyword := "plan"
  const KeepKeyword := "keep"
  const PathKeyword := "path"
  const IncludeKeyword := "include"
  const ForKeyword := "for"
  const LatestKeyword := "latest"
  const BlockStart := "{"
  const BlockEnd := "}"

  datatype Error =
    // duration literals
    | DurationTooShort
    | UnknownUnit
    | NegativeDuration
    | NumberError(cause: NumError)
    // plan blocks
    | SyntaxError
    | UnterminatedPlan
    | FrequencyTooBig
    | Latest1
    | NoPaths
    | NoKeeps
    | UnparseableTokens(tokens: seq<string>)
    // include directives
    | MatchesNothing(pattern: string)
    | OpenFailed(path: string)
    | ReadFailed(path: string)

  /** The text each error prints. Operating-system errors carry text the model
      does not know, so only their operation and path are given. */
  function Message(e: Error): string
  {
    match e
    case DurationTooShort => "duration string too short"
    case UnknownUnit => "unknown unit"
    case NegativeDuration => "negative duration not allowed"
    case NumberError(cause) =>
      "strconv." + cause.func + ": parsing \"" + cause.num + "\": "
      + (if cause.err == InvalidSyntax then "invalid syntax" else "value out of range")
    case SyntaxError => "syntax error"
    case UnterminatedPlan => "unterminated plan"
    case FrequencyTooBig => "frequency cannot be bigger than age"
    case Latest1 => "latest must be at least 1"
    case NoPaths => "no paths defined"
    case NoKeeps => "no keep periods defined"
    case UnparseableTokens(tokens) => "unparseable tokens: [" + Join(tokens, " ") + "]"
    case MatchesNothing(pattern) => "'" + pattern + "' matches nothing"
    case OpenFailed(path) => "open " + path
    case ReadFailed(path) => "read " + path
  }

  /** A sampling rule: among snapshots younger than `age`, keep one per
      `frequency`. Both are durations in nanoseconds. */
  datatype Period = Period(frequency: int, age: int)

  /** A plan as it is stored in the configuration once its block is closed. */
  datatype Plan = Plan(name: string, paths: seq<string>, latest: int, periods: seq<Period>)

  predicate ValidPeriod(p: Period)
  {
    0 <= p.frequency <= p.age
  }

  /** What every plan that the reader stores satisfies: at least one path,
      `latest` at least 1 and every period well ordered. */
  predicate ValidPlan(p: Plan)
  {
    |p.paths| >= 1 && p.latest >= 1 && forall i :: 0 <= i < |p.periods| ==> ValidPeriod(p.periods[i])
  }
}
