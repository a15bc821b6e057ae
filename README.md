# zfs-cleaner in Dafny

A model of the two computing parts of zfs-cleaner, a tool that destroys old
ZFS snapshots according to retention plans.

- **The configuration reader** (package `conf`). It turns text such as

  ```
  plan daily {
    path tank/home
    keep 1h for 7d
    keep latest 10
  }
  ```

  into a list of `Plan{Name, Paths, Latest, Periods}` values, or into the
  first error found. It has four layers:
  - duration literals (`duration.go`);
  - a line scanner that strips `#` and `//` comments and expands
    `include GLOB` lines through a stack of suspended sources (`state.go`);
  - a state machine of "action" functions that each return the next action
    (`Config.go`, `Plan.go`);
  - the older single-file reader `Conf.go`, which has no `include` and
    assigns errors instead of keeping the first.

  One reader covers both versions, parameterised by `Variant` (`Current` or
  `Legacy`).
- **The retention engine** (package `zfs`). It does three things:
  - parses the output of `zfs list -H -p -o name,creation` into snapshots of
    one dataset (`Snapshot.go`, `SnapshotList.go`);
  - looks snapshots up by time;
  - marks the snapshots to keep in place, by count, by name and by the
    bucketed walk `Sieve`.

Files and modules:

- `wrappers.dfy` (`Wrappers`): `Option` and `Result`.
- `strings.dfy` (`Strings`): the parts of Go's `strings`, `unicode` and `bufio` packages the readers rely on.
  - `unicode.IsSpace`, `TrimSpace`, `Fields`, `Index`, `HasPrefix`, `Split`, `Join`;
  - the line splitting of `bufio.Scanner`;
  - the byte length of UTF-8 text.
- `strconv.dfy` (`Strconv`): `strconv.ParseInt(s, 10, 64)` with its syntax and range errors, and decimal formatting.
- `conftypes.dfy` (`ConfTypes`): keywords, the error values and their messages, `Period`, `Plan`, and the reader `Variant`.
- `duration.dfy` (`Duration`): `parseDuration`.
- `scanner.dfy` (`Scanner`): the scanner, in two layers.
  - Pure: `trim`, and `scanLine`/`include` as the function `Scan`. The file system is an oracle: a glob table and file contents.
  - Imperative: the class `State`, whose methods `ScanLine` (with its blank-skipping loop `NextLine`), `Include`, `Error`, `Fail` and `UnparsableToken` update its fields. Each is proved to compute the pure function.
- `machine.dfy` (`Machine`): the actions as one step function over a tagged state, and `Run`, the loop of `Read`.
- `reading.dfy` (`Reading`): what a whole run guarantees.
- `layout.dfy` (`Layout`): the shape of a configuration line as `trim` and `strings.Fields` see it, and its tokens.
- `blocks.dfy` (`Blocks`): what the reader does with a plan block. A well-formed block is stored after the plans before it; a block without a path, or one the input ends in, is an error.
- `readcases.dfy` (`ReadCases`): the inputs of the reader's tests in `conf/Conf_test.go` and the plans or errors they give.
- `reader.dfy` (`Reader`): the action methods as Go writes them.
  - The classes `Config` and `Plan` own the fields Go mutates.
  - `Config.Read` is the loop over actions.
  - Each action method is proved to take exactly the machine step of its tag.
- `snapshot.dfy` (`Snapshots`): `NewSnapshotFromLine` and `SnapshotName`.
- `snapshotlist.dfy` (`SnapshotLists`): `NewSnapshotListFromOutput`, and the list operations on an `array<Snapshot>`.

Times and durations are integers of nanoseconds, as in Go's `time` package.
`Second` is 10^9. `time.Time{}` is `ZeroTime`, year 1 expressed as
nanoseconds since the Unix epoch. `Time.Sub` saturates at the bounds of a
64-bit duration (`Sub`). `SubCompares` shows that the saturation never
changes a comparison the source makes.

The reader's check for sorted input tolerates one second of disorder.
`NewSnapshotListFromOutput` therefore returns a list that is sorted only up
to one second (`ParseListNearlySorted`, `DescendingAccepted`). The lemmas
about `Oldest`, `Latest`, `KeepLatest`, `KeepOldest` and `Sieve` state what
they mean for a sorted list. `ParseListSorted` gives the condition under
which the reader's output is one: the dataset's snapshots never go back in
time.

## Model

| member | source | states |
|---|---|---|
| Duration.UnitSize | conf/duration.go:10-16 | the five unit letters s, m, h, d, y name sizes of one second or more; every other character names none |
| Duration.ParseDuration | conf/duration.go:9-41 | every error returns a zero duration; a success is non-negative, and its input ends in a known unit and is a multiple of that unit; input of two or more bytes whose last character is not a unit fails with "unknown unit" whatever comes before it (`12`, `12k`, `year`), since the unit is checked before the number |
| Duration.ParseDurationRoundTrip | conf/duration.go:23-40 | the decimal form of any n from 0 to 2^63-1 followed by a unit letter reads back as n times the unit |
| Duration.NumberErrorPropagates | conf/duration.go:29-32 | when the text before the unit is not an integer, the number parser's error is returned unchanged |
| Duration.CompositeRejected | conf/duration.go:29-32 | a composite literal such as `1h30m` is not summed but fails with a syntax error from the number parser |
| Duration.NegativeRejected | conf/duration.go:34-36 | a negative count with a known unit fails with "negative duration not allowed" |
| Duration.TooShort | conf/duration.go:19-21 | ASCII input of fewer than two characters fails with "duration string too short" |
| Duration.OneWideCharacter | conf/duration.go:19-27 | the length check counts bytes: one non-ASCII character passes it and then fails with "unknown unit" |
| Scanner.Trim | conf/state.go:29-43 | what `trim` returns has no white space at either end |
| Scanner.TrimClean | conf/state.go:29-43 | what `trim` returns contains no `#`, no `//` and no surrounding white space; in conf/Conf.go (lines 46-60), the older reader's `trim` is the same function and has the same guarantee |
| Scanner.TrimIdempotent | conf/state.go:29-43 | trimming twice is trimming once |
| Scanner.Tokens | conf/state.go:52-56 | the tokens of a line are non-empty and free of white space, and there are none exactly when the trimmed line is empty |
| Scanner.Gather | conf/state.go:85-107 | reading the matched files succeeds exactly when every file can be opened and read; a failure is an open or read error |
| Scanner.GatherFailureSticks | conf/state.go:87-100 | once a file fails, the files after it change nothing: the first failure is the error |
| Scanner.ReadFiles | conf/state.go:85-107 | the loop that copies the matched files into one buffer computes `Gather`: the files' texts each followed by a newline, or the first open or read error |
| Scanner.ScanSkip | conf/state.go:50-55 | skipping blank lines changes nothing a scan computes and never adds lines left to read |
| Scanner.IncludeCases | conf/state.go:75-113 | an `include` whose files cannot be read records that error and stops; otherwise scanning continues on the included text, with the current source suspended in front of the others |
| Scanner.IncludeText | conf/state.go:77-83 | a pattern that matches nothing is the error "'P' matches nothing"; otherwise the text is the matched files read in glob order |
| Scanner.FirstError | conf/state.go:115-122 | an error is always recorded; an earlier error is kept, otherwise the new one is recorded |
| Scanner.Scan | conf/state.go:47-73 | a scan never adds lines left to read, and one that finds a line leaves strictly fewer, so the reader terminates |
| Scanner.IncludeScan | conf/state.go:75-113 | an include adds to the lines left to read at most the size of the included text |
| Scanner.ScanBlank | conf/state.go:50-55 | a line that trims to nothing is skipped |
| Scanner.ScanTokens | conf/state.go:54-61 | a line with tokens that is not an `include` is returned as its tokens; an `include` line is handed to `include` with a pattern |
| Scanner.ScanPop | conf/state.go:65-70 | at the end of a source, scanning resumes with the most recently suspended source |
| Scanner.ScanOutcome | conf/state.go:47-73 | a scan ends in one of three ways, and an error recorded before is never replaced: (1) the tokens of a line that is not an `include`; (2) the end of every source, with no tokens; (3) a failed `include`, whose error is then recorded |
| Scanner.IncludeOutcome | conf/state.go:75-113 | the same outcomes for a scan that starts at an `include` line |
| Scanner.State.constructor | conf/Config.go:15-16 | a new reader starts on the input's lines with nothing suspended, no tokens and no error |
| Scanner.State.Error | conf/state.go:115-122 | `error` records the first error only and changes nothing else |
| Scanner.State.Fail | conf/Plan.go:26-29 | a handler records an error through `error` in the split-file reader and by assignment in the older one, changing nothing else |
| Scanner.State.UnparsableToken | conf/state.go:124-126 | the tokens of the last line are recorded as "unparseable tokens" |
| Scanner.State.ScanLine | conf/state.go:47-73 | `scanLine` computes `Scan`: the same result, sources, tokens and error |
| Scanner.State.NextLine | conf/state.go:50-56 | the loop of `scanLine` stops at the first line of the current source that is not blank after trimming, and takes it; with no such line it consumes the source and takes nothing; the other fields stay unchanged |
| Scanner.State.Include | conf/state.go:75-113 | `include` computes `IncludeScan` |
| Machine.RootLineStep | conf/Config.go:25-41 | the step continues from the sources and tokens its scan leaves; at the end of input the reader stops with the scan's error; `plan NAME {` is accepted and opens a plan named NAME with `Latest` 1 and no paths or periods; any other line records "unparseable tokens" and stops; plans are unchanged; in conf/Conf.go (lines 88-105), the older `rootLine` is the same step, recording its error by assignment |
| Machine.PlanLineStep | conf/Plan.go:26-48 | inside a plan the step continues from the sources and tokens its scan leaves: the end of input is "unterminated plan" (after any error the scan recorded); the scanned tokens of each of the four shapes `keep F for A`, `keep latest N`, `path P` and `}` go to that shape's handler, with the plan unchanged; anything else is "unparseable tokens"; in conf/Conf.go (lines 107-132), the older `planLine` dispatches on the same four shapes |
| Machine.KeepStep | conf/Plan.go:50-79 | the step succeeds exactly when the line has four tokens, both durations parse and F is at most A (so F equal to A is accepted), and then exactly the period (F, A) is appended; a shorter line is "syntax error"; the frequency's error, then the age's, is passed on unchanged; F above A is "frequency cannot be bigger than age"; in conf/Conf.go (lines 134-165), the older `keep` behaves the same |
| Machine.KeepLatestStep | conf/Plan.go:81-100 | the step succeeds exactly when N is a base-10 integer of at least 1, and then N replaces `Latest`; below 1 is "latest must be at least 1"; a parse failure is the parser's error; in conf/Conf.go (lines 167-188), the older `keepLatest` behaves the same |
| Machine.PathStep | conf/Plan.go:102-110 | the step succeeds exactly when the line has two tokens, and then appends exactly P to the paths; otherwise "syntax error"; in conf/Conf.go (lines 190-199), the older `path` behaves the same |
| Machine.EndStep | conf/Plan.go:112-126 | checks in order "no paths defined", then "no keep periods defined"; otherwise appends the plan to the configuration and returns to the root; in conf/Conf.go (lines 201-217), the older `end` behaves the same |
| Machine.Step | conf/Config.go:18-19 | every action lowers a measure of the input left, so the loop of actions ends |
| Machine.Run | conf/Config.go:18-19 | the loop runs until an action returns nil |
| Reading.ReadStoresValidPlans | conf/Plan.go:112-126 | every plan a run stores has at least one path, `Latest` at least 1 and each frequency at most its age; earlier plans are kept; "no keep periods defined" is never reported |
| Reading.RunGood | conf/Config.go:18-19 | every state a run reaches keeps that invariant, and plans are only ever appended |
| Reading.ReadersAgree | conf/Conf.go:63-71 | on text without `include` lines, the older reader and the split-file reader store the same plans and report the same error |
| Reading.ScanIncludeFree | conf/Conf.go:73-86 | without `include` lines both scanners read alike, never suspend a source and never record an error |
| Reading.BlankInput | conf/Config.go:26-28 | text of blank and comment lines defines no plans and is not an error |
| Blocks.RuleStep | conf/Plan.go:31-41 | a `keep F for A`, `keep latest N` or `path P` line the handlers accept is routed to its handler and applied to the plan, and reading goes on at the next line |
| Blocks.BlankStep | conf/state.go:50-55 | a blank or comment line, at the root or inside a plan, is skipped and changes nothing else |
| Blocks.BodyRun | conf/Plan.go:26-110 | the rules of a block body are applied to the plan in order, blank lines and comments are skipped, and `Latest` stays at least 1 |
| Blocks.OpenStep | conf/Config.go:30-37 | `plan NAME {` opens a new plan named NAME, with `Latest` 1, no paths and no periods |
| Blocks.OpenBody | conf/Config.go:30-37 | after `plan NAME {` and a body of rules, the reader is inside the plan the rules built from a new plan, at the line after the body |
| Blocks.CloseStep | conf/Plan.go:112-126 | at `}`, a plan with a path is appended to the plans and the reader is back at the root; a plan without one is "no paths defined" and nothing is stored |
| Blocks.EndOfInputStep | conf/Plan.go:27-29 | input that ends inside a plan is "unterminated plan" and nothing more is stored |
| Blocks.BlockStored | conf/Plan.go:121-125 | a well-formed block (`plan NAME {`, rule lines holding a `path`, `}`) is accepted: the plan its rules build is appended after the plans before it, and the rest of the input is read as if the block were not there, so plans are stored in source order |
| Blocks.BlockWithoutPath | conf/Plan.go:113-115 | a block whose rules name no path is "no paths defined", and the plans before it are all that is stored |
| Blocks.BlockUnterminated | conf/Plan.go:27-29 | a block the input ends in is "unterminated plan", and the plans before it are all that is stored |
| Layout.TokensOfLine | conf/state.go:29-56 | the tokens of a line made of white space, words separated by white space, white space and an optional `#` or `//` comment are exactly its words |
| Layout.TokensOfBlank | conf/state.go:29-56 | a line of white space and an optional comment has no tokens |
| Strings.SplitLinesJoin | conf/Config.go:16 | splitting text made of lines joined by newlines, the last one not empty, gives back exactly those lines |
| Strings.SplitLinesUnlines | conf/Config.go:16 | splitting text made of lines each ended by a newline gives back exactly those lines |
| ReadCases.ReadEmpty | conf/Conf_test.go:50 | empty input stores no plan and is not an error |
| ReadCases.ReadComments | conf/Conf_test.go:51 | blank lines and `#` and `//` comments store no plan and are not an error |
| ReadCases.ReadUnterminated | conf/Conf_test.go:52 | `plan buh {` at the end of input is "unterminated plan", with no plan stored |
| ReadCases.ReadNoPath | conf/Conf_test.go:53 | a block with `keep latest 10` and no path is "no paths defined", with no plan stored |
| ReadCases.ReadLatest | conf/Conf_test.go:54-67 | a commented block with `path /buh` and `keep latest 10` stores exactly the plan buh with that path, `Latest` 10 and no periods, and no error |
| ReadCases.ReadPeriod | conf/Conf_test.go:69-89 | adding `keep 1d for 30d` stores the period of one day for thirty days as well |
| ReadCases.ReadSpacing | conf/Conf_test.go:91-118 | blank lines, extra spaces, tabs, comments after a rule and an indented `}` change nothing: the plan has both periods in source order and `Latest` 10 |
| ReadCases.ReadTwoPaths | conf/Conf_test.go:120-144 | two `path` lines and two periods are stored in source order, with `Latest` left at 1 |
| Reading.IncludeFailureWins | conf/state.go:115-122 | inside a plan, a failed `include` is the error reported, not the "unterminated plan" that follows it |
| Reader.Config.Read | conf/Config.go:14-22 | `Read` stores exactly the plans and returns exactly the error that the machine's run computes; in conf/Conf.go (lines 63-71), the older `Read` is the same loop |
| Reader.Config.Act | conf/Config.go:18 | running one action takes exactly one machine step |
| Reader.Config.RootLine | conf/Config.go:25-41 | `rootLine` takes exactly the machine's root step, so `plan NAME {` is accepted and opens a plan named NAME and any other line is "unparseable tokens"; a new plan belongs to this configuration |
| Reader.Plan.constructor | conf/Config.go:31-35 | a new plan has the name, `Latest` 1, no paths or periods, and its configuration |
| Reader.Plan.PlanLine | conf/Plan.go:26-48 | `planLine` takes exactly the machine's plan-line step, so each of the four line shapes goes to its handler, the end of input is "unterminated plan" and anything else is "unparseable tokens" |
| Reader.Plan.Route | conf/Plan.go:30-47 | the dispatch after the scan is the machine's dispatch |
| Reader.Plan.Keep | conf/Plan.go:50-79 | `keep` takes exactly the machine's keep step, assigning the duration errors: F at most A appends the period (F, A), F above A is "frequency cannot be bigger than age", fewer than four tokens is "syntax error" |
| Reader.Plan.KeepLatest | conf/Plan.go:81-100 | `keepLatest` takes the machine's keep-latest step, assigning the number error |
| Reader.Plan.Path | conf/Plan.go:102-110 | `path` takes the machine's path step |
| Reader.Plan.End | conf/Plan.go:112-126 | `end` takes the machine's end step: the plan leaves its configuration and a copy is appended to it |
| Snapshots.SubCompares | zfs/SnapshotList.go:34 | comparing the saturated difference of two times with 0 or one second is comparing the exact difference |
| Snapshots.ParseSnapshot | zfs/Snapshot.go:27-52 | fewer than 3 bytes or not exactly two fields is a malformed line; a bad number is the parser's error; a success has a non-empty, space-free name (the first field), a non-negative whole number of seconds, and is not kept |
| Snapshots.ParseFormatSnapshot | zfs/Snapshot.go:27-52 | round trip: the line of a space-free name and n seconds reads back as that name created n seconds after the epoch, not kept |
| Snapshots.NegativeCreation | zfs/Snapshot.go:42-44 | a negative creation time is a malformed line |
| Snapshots.SnapshotName | zfs/Snapshot.go:61-68 | with exactly one `@` the result is the text after it; otherwise the whole name |
| Snapshots.SnapshotNameOf | zfs/Snapshot.go:61-68 | the name of `DATASET@SNAP` is `SNAP` |
| Snapshots.SnapshotNameExamples | zfs/Snapshot_test.go:50-70 | `path@s1` gives `s1`, `s1` gives `s1`, `@s1` gives `s1`, `@` gives the empty name |
| SnapshotLists.NewSnapshotListFromOutput | zfs/SnapshotList.go:19-44 | the method computes `ParseList` |
| SnapshotLists.ReadListMeaning | zfs/SnapshotList.go:23-43 | the reader succeeds exactly when every line is a snapshot line (of any dataset) and the dataset's snapshots never drop more than a second; it then returns exactly the dataset's snapshots in output order |
| SnapshotLists.ReadListFailure | zfs/SnapshotList.go:23-43 | when every line parses and the dataset's snapshots drop by more than a second, the error is "output does not appear sorted"; when a line does not parse, its error is returned unless the dataset's snapshots before it already drop by more than a second, which is then the error |
| SnapshotLists.ReadListUnsorted | zfs/SnapshotList.go:34-38 | when every line parses but the dataset's snapshots drop by more than a second, `ReadList` fails with "output does not appear sorted" |
| SnapshotLists.ReadListBadLine | zfs/SnapshotList.go:23-43 | when some line does not parse, `ReadList` fails with the parse error of the first such line, or with "output does not appear sorted" when the dataset's snapshots before it already drop by more than a second |
| SnapshotLists.MatchingShape | zfs/SnapshotList.go:30-32 | every snapshot kept belongs to the dataset, is not marked, and has a non-negative whole number of seconds |
| SnapshotLists.ParseListNearlySorted | zfs/SnapshotList.go:34-36 | no snapshot returned is more than one second older than the one before it; all belong to the dataset and none is kept |
| SnapshotLists.ParseListSorted | zfs/SnapshotList.go:11-14 | when the dataset's snapshots never go back in time, the reader returns them, sorted |
| SnapshotLists.DescendingAccepted | zfs/SnapshotList.go:34-36 | two snapshots of the dataset, the second one second older, are accepted as they stand, and the list returned is not sorted |
| SnapshotLists.NextFrom | zfs/SnapshotList.go:48-56 | the result is the first index at or after i whose creation is at or after `from`, or none when no later one qualifies |
| SnapshotLists.Next | zfs/SnapshotList.go:48-56 | `Next` returns the first snapshot, in list order, created at or after `from`, or none |
| SnapshotLists.NextIsOldestAfter | zfs/SnapshotList.go:46-47 | in a sorted list that snapshot is the oldest one at or after `from` |
| SnapshotLists.OldestLatestBounds | zfs/SnapshotList.go:58-74 | `Oldest` and `Latest` are none exactly for the empty list; in a sorted list they are created no later, and no earlier, than every snapshot |
| SnapshotLists.MarkMeaning | zfs/SnapshotList.go:96 | marking never unmarks and never changes a name or a creation time; it marks exactly the picked snapshots besides those already marked |
| SnapshotLists.MarkIdempotent | zfs/SnapshotList.go:137 | marking the same snapshots twice is marking them once |
| SnapshotLists.KeepLatest | zfs/SnapshotList.go:88-98 | `KeepLatest` marks exactly the indices from `len - num`, computed with Go's 64-bit wrap-around and raised to 0 when negative, and changes nothing else |
| SnapshotLists.Sub64 | zfs/SnapshotList.go:89 | Go's `int` subtraction: the result is in the int64 range, congruent to the exact difference modulo 2^64, and equal to it when that fits |
| SnapshotLists.SubWraps | zfs/SnapshotList.go:89-93 | for a length and a `num` in Go's `int` range, `len - num` only overflows upwards, and then wraps to a negative start, which the code raises to 0 |
| SnapshotLists.LatestAreNewest | zfs/SnapshotList.go:87-98 | when `len - num` fits in 64 bits, exactly the indices from len-num are marked (none for num <= 0, all for num >= len); when it overflows, every index is marked; in a sorted list each marked snapshot is no older than each unmarked one |
| SnapshotLists.LatestWrapsAround | zfs/SnapshotList.go:89-93 | with one snapshot and `num = MinInt64`, `1 - num` wraps to `MinInt64 + 1` and the snapshot is kept; the reader never passes such a `num`, since it accepts `keep latest N` only for N at least 1 |
| SnapshotLists.KeepOldest | zfs/SnapshotList.go:116-120 | `KeepOldest` marks the `num` first snapshots and changes nothing else |
| SnapshotLists.OldestAreOldest | zfs/SnapshotList.go:115-120 | exactly the indices below num are marked; in a sorted list each marked snapshot is no newer than each unmarked one |
| SnapshotLists.KeepNamed | zfs/SnapshotList.go:101-113 | `KeepNamed` marks exactly the snapshots whose short name is among `names` |
| SnapshotLists.NamedKeepsSnapshot | zfs/SnapshotList.go:100-113 | `DATASET@SNAP` is marked exactly when SNAP is named; no names mark nothing |
| SnapshotLists.ResetSieve | zfs/SnapshotList.go:142-146 | every snapshot is marked for deletion, nothing else changes |
| SnapshotLists.ResetThenMark | zfs/SnapshotList.go:141-146 | after a reset the marks are exactly the ones made since; creation times are unchanged |
| SnapshotLists.Walk | zfs/SnapshotList.go:136-138 | the walk visits only snapshots created at or after its start, and ends |
| SnapshotLists.Sieve | zfs/SnapshotList.go:123-139 | `Sieve` marks exactly `SieveSet` and changes nothing else |
| SnapshotLists.KeepFrom | zfs/SnapshotList.go:126-134 | below one second of frequency, every snapshot created at or after `start` is marked |
| SnapshotLists.SieveWalk | zfs/SnapshotList.go:136-138 | the loop marks exactly the snapshots the walk visits |
| SnapshotLists.WalkSpaced | zfs/SnapshotList.go:136-138 | each snapshot the walk visits is created at least one frequency after every one visited before it |
| SnapshotLists.WalkCovers | zfs/SnapshotList.go:136-138 | in a sorted list every snapshot at or after the start lies less than one frequency after a visited one, no earlier than it |
| SnapshotLists.SieveAfterStart | zfs/SnapshotList.go:123-139 | `Sieve` never marks a snapshot created before `start`; below one second of frequency it marks exactly those at or after it |
| SnapshotLists.SieveSpacing | zfs/SnapshotList.go:136-138 | in a sorted list the snapshots `Sieve` marks are at least one frequency apart |
| SnapshotLists.SieveCovers | zfs/SnapshotList.go:136-138 | in a sorted list every snapshot at or after `start` is within one frequency after a marked one |
| SnapshotLists.SieveIdempotent | zfs/SnapshotList.go:123-139 | sieving twice with the same start and frequency marks what sieving once does |

## Left out

- I/O. Reading the configuration from an `io.Reader` and the files behind `include` are left out. The model has three stand-ins:
  - `Read` takes the input text;
  - the glob table and file contents are an oracle (`FileSystem`);
  - operating-system errors are reduced to "open failed" and "read failed" for a path, because their text comes from the operating system.
- Reader.Config.Read: requires `Expandable` of the whole input, which excludes two kinds of `include` line wherever they appear, also after the line at which the reader stops:
  - an `include` line without a pattern, which makes Go index past the end of the tokens and panic when the reader reaches it;
  - a file that includes itself, which makes Go recurse without end when the reader reaches it.
  Input such as `garbage` followed by a bare `include` is therefore outside the model, although Go stops at the first line with "unparseable tokens: [garbage]" and never reaches the second.
- `bufio.Scanner`'s 64 KiB limit on a line is not modelled: a longer line is read whole.
- Duration.ParseDuration: does not model the 64-bit overflow of `time.Duration(value) * unitSize`. The product is an unbounded integer.
- Snapshots.ParseSnapshot: does not model the overflow of `time.Unix(creation, 0)` for creation times beyond about 292 years after the epoch. The time is an unbounded integer.
- SnapshotLists.Sieve: does not model the overflow of `Creation.Add(frequency)`. The sum is an unbounded integer.
- Pointer identity.
  - `SnapshotList` is a slice of pointers. The model is an array of snapshot records, so two list entries cannot share one snapshot.
  - `Next`, `Oldest` and `Latest` return an index instead of a pointer, and nil is `None`.
  - `NewSnapshotListFromOutput` returns the snapshots as a sequence; the marking operations work on an array of them.
- `String()` of `Snapshot` and `SnapshotList` is display formatting only.
- `main.go`, `plancheck.go`, `todo.go`, `version.go` and `zfs/ZfsExecutor.go` are not part of this model: command execution, locking, and command-line handling.
- `conf/identifiers.go`, `conf/Error.go` and `conf/Period.go` hold only constants and types; they are inlined in `ConfTypes`.
- The texts of the `fmt` errors are given by `ConfTypes.Message`. The "output does not appear sorted" error keeps only its two numbers.
- Rules that the modelled code does not have, although other revisions of zfs-cleaner have them; the model follows the code:
  - a `protect NAME` plan rule: `planLine` in `conf/Plan.go` has no such shape, so `protect x` is "unparseable tokens";
  - a check for ZFS holds on snapshots: `zfs/SnapshotList.go` has no such rule;
  - aligning the start of `Sieve` to a multiple of the frequency: `Sieve` starts its walk exactly at `start`.
