/** The line scanner of the configuration reader (`conf/state.go`, and the
    include-free `scanLine` of `conf/Conf.go`): comment stripping, splitting
    lines into tokens, and the stack of suspended sources that `include`
    pushes onto. */
module Scanner {
  import opened Wrappers
  import opened Strings
  import opened ConfTypes

  // ---------------------------------------------------------------------
  // Comments

  /** `s` up to the first occurrence of `pat`, or all of `s`. */
  function CutAt(s: string, pat: string): (r: string)
    requires pat != []
    ensures |r| <= |s| && r == s[..|r|]
    ensures forall j: nat :: !OccursAt(r, pat, j)
  {
    var i := IndexOf(s, pat);
    if i >= 0 then
      FreeBefore(s, pat, i);
      s[..i]
    else s
  }

  lemma SliceOfSlice(s: string, i: nat, k: nat, a: nat, b: nat)
    requires i <= k <= |s| && a <= b <= k - i
    ensures s[i..k][a..b] == s[i + a..i + b]
  {
    assert forall t :: 0 <= t < b - a ==> s[i..k][a..b][t] == s[i + a + t];
  }

  lemma FreeBefore(s: string, pat: string, i: nat)
    requires pat != [] && i <= |s|
    requires forall j: nat :: j < i ==> !OccursAt(s, pat, j)
    ensures forall j: nat :: !OccursAt(s[..i], pat, j)
  {
    forall j: nat | OccursAt(s[..i], pat, j)
      ensures false
    {
      SliceOfSlice(s, 0, i, j, j + |pat|);
      assert OccursAt(s, pat, j);
    }
  }

  /** `trim`: cut at the first `#`, then at the first `//` of what is left,
      then remove the surrounding white space. */
  function Trim(s: string): (r: string)
    ensures r != [] ==> !IsSpace(r[0]) && !IsSpace(r[|r| - 1])
  {
    TrimSpace(CutAt(CutAt(s, "#"), "//"))
  }

  /** `pat` does not occur anywhere in `s`. */
  ghost predicate Free(s: string, pat: string)
  {
    forall j: nat :: !OccursAt(s, pat, j)
  }

  lemma FreeSlice(s: string, pat: string, i: nat, k: nat)
    requires Free(s, pat) && i <= k <= |s|
    ensures Free(s[i..k], pat)
  {
    forall j: nat | OccursAt(s[i..k], pat, j)
      ensures false
    {
      SliceOfSlice(s, i, k, j, j + |pat|);
      assert OccursAt(s, pat, i + j);
    }
  }

  lemma TrimSpaceInfix(s: string) returns (i: nat)
    ensures i + |TrimSpace(s)| <= |s| && TrimSpace(s) == s[i..i + |TrimSpace(s)|]
  {
    var t := TrimLeft(s);
    var r := TrimRight(t);
    i := |s| - |t|;
    TrimLeftSplit(s);
    TrimRightSplit(t);
    assert r == TrimSpace(s);
    assert t == s[i..|s|];
    assert r == t[0..|r|];
    SliceOfSlice(s, i, |s|, 0, |r|);
  }

  /** What `trim` leaves contains no comment marker and has no white space
      at either end. */
  lemma TrimClean(s: string)
    ensures Free(Trim(s), "#") && Free(Trim(s), "//")
    ensures Trim(s) != [] ==> !IsSpace(Trim(s)[0]) && !IsSpace(Trim(s)[|Trim(s)| - 1])
  {
    var a := CutAt(s, "#");
    var b := CutAt(a, "//");
    FreeSlice(a, "#", 0, |b|);
    assert b == a[0..|b|];
    var i := TrimSpaceInfix(b);
    FreeSlice(b, "#", i, i + |Trim(s)|);
    FreeSlice(b, "//", i, i + |Trim(s)|);
  }

  lemma CutAtFree(s: string, pat: string)
    requires pat != [] && Free(s, pat)
    ensures CutAt(s, pat) == s
  {
  }

  /** Trimming twice is trimming once. */
  lemma TrimIdempotent(s: string)
    ensures Trim(Trim(s)) == Trim(s)
  {
    var t := Trim(s);
    TrimClean(s);
    CutAtFree(t, "#");
    CutAtFree(t, "//");
    TrimSpaceIdentity(t);
  }

  /** The tokens of one line. */
  function Tokens(line: string): (t: seq<string>)
    ensures forall k :: 0 <= k < |t| ==> t[k] != [] && NoSpace(t[k])
    ensures t == [] <==> Trim(line) == []
  {
    Fields(Trim(line))
  }

  // ---------------------------------------------------------------------
  // The file system seen by `include`

  /** The outcome of opening and copying one file. */
  datatype File = Readable(content: string) | OpenFails | ReadFails

  /** `filepath.Glob`, `os.Open` and `io.Copy` as an oracle: the sorted matches
      of each pattern, and what reading each path gives. A pattern that is not
      listed matches nothing, and a path that is not listed cannot be opened. */
  datatype FileSystem = FileSystem(glob: map<string, seq<string>>, files: map<string, File>)

  function Glob(fs: FileSystem, pattern: string): seq<string>
  {
    if pattern in fs.glob then fs.glob[pattern] else []
  }

  function Open(fs: FileSystem, path: string): File
  {
    if path in fs.files then fs.files[path] else OpenFails
  }

  /** The buffer `include` fills from `paths`: every file's content followed
      by a newline, in order, or the error of the first file that cannot be
      opened or read. */
  function Gather(fs: FileSystem, paths: seq<string>): (r: Result<string, Error>)
    ensures r.Success? <==> forall i :: 0 <= i < |paths| ==> Open(fs, paths[i]).Readable?
    ensures r.Failure? ==> r.error.OpenFailed? || r.error.ReadFailed?
    decreases |paths|
  {
    if paths == [] then Success([])
    else
      var init := paths[..|paths| - 1];
      var last := paths[|paths| - 1];
      assert forall i :: 0 <= i < |init| ==> init[i] == paths[i];
      match Gather(fs, init)
      case Failure(e) => Failure(e)
      case Success(buffer) =>
        match Open(fs, last)
        case OpenFails => Failure(OpenFailed(last))
        case ReadFails => Failure(ReadFailed(last))
        case Readable(content) => Success(buffer + content + "\n")
  }

  /** Once a file fails, the buffer stays failed whatever follows. */
  lemma {:induction false} GatherFailureSticks(fs: FileSystem, paths: seq<string>, k: nat)
    requires k <= |paths| && Gather(fs, paths[..k]).Failure?
    ensures Gather(fs, paths) == Gather(fs, paths[..k])
    decreases |paths| - k
  {
    if k < |paths| {
      assert paths[..k + 1][..k] == paths[..k];
      GatherFailureSticks(fs, paths, k + 1);
    } else {
      assert paths[..k] == paths;
    }
  }

  /** The text an `include` of `pattern` scans next, or the error it records. */
  function IncludeText(fs: FileSystem, pattern: string): (r: Result<string, Error>)
    ensures Glob(fs, pattern) == [] ==> r == Failure(MatchesNothing(pattern))
    ensures Glob(fs, pattern) != [] ==> r == Gather(fs, Glob(fs, pattern))
  {
    var paths := Glob(fs, pattern);
    if |paths| == 0 then Failure(MatchesNothing(pattern)) else Gather(fs, paths)
  }

  // ---------------------------------------------------------------------
  // Sources that can be scanned to the end

  /** The tokens name an `include` directive: only the split-file reader
      knows the keyword. */
  predicate IsInclude(v: Variant, fields: seq<string>)
  {
    v == Current && fields != [] && fields[0] == IncludeKeyword
  }

  /** An `include` line without a pattern: Go indexes past the end of the
      tokens and panics. */
  predicate Bare(v: Variant, line: string)
  {
    IsInclude(v, Tokens(line)) && |Tokens(line)| < 2
  }

  /** The line is an `include` whose files can all be read. */
  predicate Pulls(fs: FileSystem, v: Variant, line: string)
  {
    var t := Tokens(line);
    IsInclude(v, t) && |t| >= 2 && IncludeText(fs, t[1]).Success?
  }

  /** The lines such an `include` pulls in. */
  function Pulled(fs: FileSystem, v: Variant, line: string): seq<string>
    requires Pulls(fs, v, line)
  {
    SplitLines(IncludeText(fs, Tokens(line)[1]).value)
  }

  /** Scanning `lines` neither panics nor recurses forever: every `include`
      names a pattern and the includes nest at most `depth` deep (a file that
      includes itself makes the reader recurse without end). */
  predicate Expandable(fs: FileSystem, v: Variant, lines: seq<string>, depth: nat)
    decreases depth, |lines|
  {
    lines == []
    || (!Bare(v, lines[0])
        && (Pulls(fs, v, lines[0]) ==> depth > 0 && Expandable(fs, v, Pulled(fs, v, lines[0]), depth - 1))
        && Expandable(fs, v, lines[1..], depth))
  }

  /** The number of lines scanning `lines` reads, included lines counted
      (up to `depth` levels of `include`, all there are in an expandable
      source). */
  function Size(fs: FileSystem, v: Variant, lines: seq<string>, depth: nat): nat
    decreases depth, |lines|
  {
    if lines == [] then 0
    else
      var inner := if Pulls(fs, v, lines[0]) && depth > 0 then Size(fs, v, Pulled(fs, v, lines[0]), depth - 1) else 0;
      1 + inner + Size(fs, v, lines[1..], depth)
  }

  /** A bound on the nesting depth stays a bound when it is raised, and the
      size does not depend on it. */
  lemma {:induction false} ExpandableMonotone(fs: FileSystem, v: Variant, lines: seq<string>, depth: nat)
    requires Expandable(fs, v, lines, depth)
    ensures Expandable(fs, v, lines, depth + 1)
    ensures Size(fs, v, lines, depth + 1) == Size(fs, v, lines, depth)
    decreases depth, |lines|
  {
    if lines != [] {
      if Pulls(fs, v, lines[0]) {
        ExpandableMonotone(fs, v, Pulled(fs, v, lines[0]), depth - 1);
      }
      ExpandableMonotone(fs, v, lines[1..], depth);
    }
  }

  predicate AllExpandable(fs: FileSystem, v: Variant, depth: nat, cur: seq<string>, prev: seq<seq<string>>)
  {
    Expandable(fs, v, cur, depth) && forall i :: 0 <= i < |prev| ==> Expandable(fs, v, prev[i], depth)
  }

  function SizeAll(fs: FileSystem, v: Variant, depth: nat, prev: seq<seq<string>>): nat
    decreases |prev|
  {
    if prev == [] then 0 else Size(fs, v, prev[0], depth) + SizeAll(fs, v, depth, prev[1..])
  }

  /** The lines left to read in the current source and the suspended ones. */
  function Weight(fs: FileSystem, v: Variant, depth: nat, cur: seq<string>, prev: seq<seq<string>>): nat
  {
    Size(fs, v, cur, depth) + SizeAll(fs, v, depth, prev)
  }

  /** Moving on to the most recently suspended source changes nothing. */
  lemma WeightPop(fs: FileSystem, v: Variant, depth: nat, prev: seq<seq<string>>)
    requires prev != [] && AllExpandable(fs, v, depth, [], prev)
    ensures AllExpandable(fs, v, depth, prev[0], prev[1..])
    ensures Weight(fs, v, depth, prev[0], prev[1..]) == Weight(fs, v, depth, [], prev)
  {
  }

  /** Reading a line makes the rest lighter by that line and by what it
      pulls in, which is expandable at the same depth. */
  lemma WeightSkip(fs: FileSystem, v: Variant, depth: nat, cur: seq<string>, prev: seq<seq<string>>)
    requires cur != [] && AllExpandable(fs, v, depth, cur, prev)
    ensures AllExpandable(fs, v, depth, cur[1..], prev)
    ensures !Bare(v, cur[0])
    ensures Weight(fs, v, depth, cur[1..], prev) < Weight(fs, v, depth, cur, prev)
    ensures Pulls(fs, v, cur[0]) ==>
      Expandable(fs, v, Pulled(fs, v, cur[0]), depth)
      && Weight(fs, v, depth, cur[1..], prev) + Size(fs, v, Pulled(fs, v, cur[0]), depth) < Weight(fs, v, depth, cur, prev)
  {
    SizeFirst(fs, v, cur, depth);
  }

  /** The first line of an expandable source, what it pulls in and the rest
      of the source make up its size. */
  lemma SizeFirst(fs: FileSystem, v: Variant, lines: seq<string>, depth: nat)
    requires lines != [] && Expandable(fs, v, lines, depth)
    ensures Expandable(fs, v, lines[1..], depth) && !Bare(v, lines[0])
    ensures !Pulls(fs, v, lines[0]) ==> Size(fs, v, lines, depth) == 1 + Size(fs, v, lines[1..], depth)
    ensures Pulls(fs, v, lines[0]) ==>
      Expandable(fs, v, Pulled(fs, v, lines[0]), depth)
      && Size(fs, v, lines, depth) == 1 + Size(fs, v, Pulled(fs, v, lines[0]), depth) + Size(fs, v, lines[1..], depth)
  {
    if Pulls(fs, v, lines[0]) {
      ExpandableMonotone(fs, v, Pulled(fs, v, lines[0]), depth - 1);
    }
  }

  /** Suspending the current source under a new one adds the new one's
      lines. */
  lemma WeightPush(fs: FileSystem, v: Variant, depth: nat, lines: seq<string>, cur: seq<string>, prev: seq<seq<string>>)
    requires AllExpandable(fs, v, depth, cur, prev) && Expandable(fs, v, lines, depth)
    ensures AllExpandable(fs, v, depth, lines, [cur] + prev)
    ensures Weight(fs, v, depth, lines, [cur] + prev) == Size(fs, v, lines, depth) + Weight(fs, v, depth, cur, prev)
  {
    assert ([cur] + prev)[1..] == prev;
  }

  // ---------------------------------------------------------------------
  // Scanning

  /** The state after `scanLine`: whether it found a line, the current and the
      suspended sources, the tokens and the recorded error. */
  datatype Scanned = Scanned(found: bool, cur: seq<string>, prev: seq<seq<string>>, fields: seq<string>, err: Option<Error>)

  /** `state.error`: only the first error is kept. */
  function FirstError(err: Option<Error>, e: Error): (r: Option<Error>)
    ensures r.Some?
    ensures err.Some? ==> r == err
    ensures err.None? ==> r == Some(e)
  {
    if err.None? then Some(e) else err
  }

  /** How the plan handlers record an error: through `error` in the
      split-file reader, by plain assignment in the older one. */
  function Report(v: Variant, err: Option<Error>, e: Error): Option<Error>
  {
    if v == Current then FirstError(err, e) else Some(e)
  }

  /** `scanLine`: the tokens of the next line that is not blank once trimmed,
      reading on into the suspended sources when the current one ends, and
      expanding `include` lines in place. */
  function Scan(fs: FileSystem, v: Variant, depth: nat, cur: seq<string>, prev: seq<seq<string>>, err: Option<Error>): (r: Scanned)
    requires AllExpandable(fs, v, depth, cur, prev)
    ensures AllExpandable(fs, v, depth, r.cur, r.prev)
    ensures Weight(fs, v, depth, r.cur, r.prev) <= Weight(fs, v, depth, cur, prev)
    ensures r.found ==> Weight(fs, v, depth, r.cur, r.prev) < Weight(fs, v, depth, cur, prev)
    decreases Weight(fs, v, depth, cur, prev), |prev|
  {
    if cur == [] then
      if prev == [] then Scanned(false, [], [], [], err)
      else
        WeightPop(fs, v, depth, prev);
        Scan(fs, v, depth, prev[0], prev[1..], err)
    else
      WeightSkip(fs, v, depth, cur, prev);
      var line := Trim(cur[0]);
      if line == [] then Scan(fs, v, depth, cur[1..], prev, err)
      else
        var fields := Fields(line);
        if IsInclude(v, fields) then IncludeScan(fs, v, depth, fields, cur[1..], prev, err)
        else Scanned(true, cur[1..], prev, fields, err)
  }

  /** The size of what an `include` with these tokens pulls in. */
  function IncludedSize(fs: FileSystem, v: Variant, depth: nat, fields: seq<string>): nat
    requires |fields| >= 2
  {
    if IncludeText(fs, fields[1]).Success? then Size(fs, v, SplitLines(IncludeText(fs, fields[1]).value), depth) else 0
  }

  /** `include`: the error of a pattern that matches nothing or of a file that
      cannot be read ends the scan; otherwise the current source is suspended
      on top of the stack and the included text is scanned. */
  function IncludeScan(fs: FileSystem, v: Variant, depth: nat, fields: seq<string>, cur: seq<string>, prev: seq<seq<string>>, err: Option<Error>): (r: Scanned)
    requires IsInclude(v, fields) && |fields| >= 2
    requires AllExpandable(fs, v, depth, cur, prev)
    requires IncludeText(fs, fields[1]).Success? ==> Expandable(fs, v, SplitLines(IncludeText(fs, fields[1]).value), depth)
    ensures AllExpandable(fs, v, depth, r.cur, r.prev)
    ensures Weight(fs, v, depth, r.cur, r.prev) <= Weight(fs, v, depth, cur, prev) + IncludedSize(fs, v, depth, fields)
    decreases Weight(fs, v, depth, cur, prev) + IncludedSize(fs, v, depth, fields), |prev| + 2
  {
    match IncludeText(fs, fields[1])
    case Failure(e) => Scanned(false, cur, prev, fields, FirstError(err, e))
    case Success(text) =>
      WeightPush(fs, v, depth, SplitLines(text), cur, prev);
      Scan(fs, v, depth, SplitLines(text), [cur] + prev, err)
  }


  /** One step of `Scan` at a blank line. */
  lemma ScanBlank(fs: FileSystem, v: Variant, depth: nat, cur: seq<string>, prev: seq<seq<string>>, err: Option<Error>)
    requires AllExpandable(fs, v, depth, cur, prev) && cur != [] && Trim(cur[0]) == []
    ensures AllExpandable(fs, v, depth, cur[1..], prev)
    ensures Weight(fs, v, depth, cur[1..], prev) < Weight(fs, v, depth, cur, prev)
    ensures Scan(fs, v, depth, cur, prev, err) == Scan(fs, v, depth, cur[1..], prev, err)
  {
    WeightSkip(fs, v, depth, cur, prev);
  }

  /** The two outcomes of `IncludeScan`: the error of the pattern, or the
      scan of the included lines with the current source suspended. */
  lemma IncludeCases(fs: FileSystem, v: Variant, depth: nat, fields: seq<string>, cur: seq<string>, prev: seq<seq<string>>, err: Option<Error>)
    requires IsInclude(v, fields) && |fields| >= 2
    requires AllExpandable(fs, v, depth, cur, prev)
    requires IncludeText(fs, fields[1]).Success? ==> Expandable(fs, v, SplitLines(IncludeText(fs, fields[1]).value), depth)
    ensures IncludeText(fs, fields[1]).Failure? ==>
      IncludeScan(fs, v, depth, fields, cur, prev, err) == Scanned(false, cur, prev, fields, FirstError(err, IncludeText(fs, fields[1]).error))
    ensures IncludeText(fs, fields[1]).Success? ==>
      AllExpandable(fs, v, depth, SplitLines(IncludeText(fs, fields[1]).value), [cur] + prev)
      && Weight(fs, v, depth, SplitLines(IncludeText(fs, fields[1]).value), [cur] + prev)
        == Weight(fs, v, depth, cur, prev) + IncludedSize(fs, v, depth, fields)
      && IncludeScan(fs, v, depth, fields, cur, prev, err)
        == Scan(fs, v, depth, SplitLines(IncludeText(fs, fields[1]).value), [cur] + prev, err)
  {
    if IncludeText(fs, fields[1]).Success? {
      WeightPush(fs, v, depth, SplitLines(IncludeText(fs, fields[1]).value), cur, prev);
    }
  }

  /** The source with its leading blank lines dropped. */
  function SkipBlank(cur: seq<string>): seq<string>
    decreases |cur|
  {
    if cur != [] && Trim(cur[0]) == [] then SkipBlank(cur[1..]) else cur
  }

  /** Blank lines change nothing a scan computes. */
  lemma {:induction false} ScanSkip(fs: FileSystem, v: Variant, depth: nat, cur: seq<string>, prev: seq<seq<string>>, err: Option<Error>)
    requires AllExpandable(fs, v, depth, cur, prev)
    ensures AllExpandable(fs, v, depth, SkipBlank(cur), prev)
    ensures Weight(fs, v, depth, SkipBlank(cur), prev) <= Weight(fs, v, depth, cur, prev)
    ensures Scan(fs, v, depth, SkipBlank(cur), prev, err) == Scan(fs, v, depth, cur, prev, err)
    decreases |cur|
  {
    if cur != [] && Trim(cur[0]) == [] {
      ScanBlank(fs, v, depth, cur, prev, err);
      ScanSkip(fs, v, depth, cur[1..], prev, err);
    }
  }

  /** One step of `Scan` at a line with tokens. */
  lemma ScanTokens(fs: FileSystem, v: Variant, depth: nat, cur: seq<string>, prev: seq<seq<string>>, err: Option<Error>)
    requires AllExpandable(fs, v, depth, cur, prev) && cur != [] && Trim(cur[0]) != []
    ensures AllExpandable(fs, v, depth, cur[1..], prev)
    ensures Fields(Trim(cur[0])) != []
    ensures !IsInclude(v, Fields(Trim(cur[0]))) ==>
      Scan(fs, v, depth, cur, prev, err) == Scanned(true, cur[1..], prev, Fields(Trim(cur[0])), err)
    ensures IsInclude(v, Fields(Trim(cur[0]))) ==> |Fields(Trim(cur[0]))| >= 2
    ensures IsInclude(v, Fields(Trim(cur[0]))) && IncludeText(fs, Fields(Trim(cur[0]))[1]).Success? ==>
      Expandable(fs, v, SplitLines(IncludeText(fs, Fields(Trim(cur[0]))[1]).value), depth)
    ensures IsInclude(v, Fields(Trim(cur[0]))) ==>
      Weight(fs, v, depth, cur[1..], prev) + IncludedSize(fs, v, depth, Fields(Trim(cur[0]))) < Weight(fs, v, depth, cur, prev)
    ensures IsInclude(v, Fields(Trim(cur[0]))) ==>
      Scan(fs, v, depth, cur, prev, err) == IncludeScan(fs, v, depth, Fields(Trim(cur[0])), cur[1..], prev, err)
  {
    WeightSkip(fs, v, depth, cur, prev);
  }

  /** One step of `Scan` at the end of the current source. */
  lemma ScanPop(fs: FileSystem, v: Variant, depth: nat, prev: seq<seq<string>>, err: Option<Error>)
    requires AllExpandable(fs, v, depth, [], prev) && prev != []
    ensures AllExpandable(fs, v, depth, prev[0], prev[1..])
    ensures Weight(fs, v, depth, prev[0], prev[1..]) == Weight(fs, v, depth, [], prev)
    ensures Scan(fs, v, depth, [], prev, err) == Scan(fs, v, depth, prev[0], prev[1..], err)
  {
    WeightPop(fs, v, depth, prev);
  }

  /** What a scan ends with: a line of tokens that is not an `include`; or
      the end of every source, with no tokens; or the tokens of an `include`
      whose error is now recorded. An error recorded before is never
      replaced. */
  predicate Outcome(fs: FileSystem, v: Variant, err: Option<Error>, r: Scanned)
  {
    (r.found ==> r.fields != [] && !IsInclude(v, r.fields) && r.err == err)
    && (!r.found && r.fields == [] ==> r.cur == [] && r.prev == [] && r.err == err)
    && (!r.found && r.fields != [] ==>
          IsInclude(v, r.fields) && |r.fields| >= 2 && IncludeText(fs, r.fields[1]).Failure?
          && r.err == FirstError(err, IncludeText(fs, r.fields[1]).error))
  }

  lemma {:induction false} ScanOutcome(fs: FileSystem, v: Variant, depth: nat, cur: seq<string>, prev: seq<seq<string>>, err: Option<Error>)
    requires AllExpandable(fs, v, depth, cur, prev)
    ensures Outcome(fs, v, err, Scan(fs, v, depth, cur, prev, err))
    decreases Weight(fs, v, depth, cur, prev), |prev|
  {
    if cur == [] {
      if prev != [] {
        WeightPop(fs, v, depth, prev);
        ScanOutcome(fs, v, depth, prev[0], prev[1..], err);
      }
    } else {
      WeightSkip(fs, v, depth, cur, prev);
      var line := Trim(cur[0]);
      if line == [] {
        ScanOutcome(fs, v, depth, cur[1..], prev, err);
      } else {
        var fields := Fields(line);
        if IsInclude(v, fields) {
          IncludeOutcome(fs, v, depth, fields, cur[1..], prev, err);
        }
      }
    }
  }

  lemma {:induction false} IncludeOutcome(fs: FileSystem, v: Variant, depth: nat, fields: seq<string>, cur: seq<string>, prev: seq<seq<string>>, err: Option<Error>)
    requires IsInclude(v, fields) && |fields| >= 2
    requires AllExpandable(fs, v, depth, cur, prev)
    requires IncludeText(fs, fields[1]).Success? ==> Expandable(fs, v, SplitLines(IncludeText(fs, fields[1]).value), depth)
    ensures Outcome(fs, v, err, IncludeScan(fs, v, depth, fields, cur, prev, err))
    decreases Weight(fs, v, depth, cur, prev) + IncludedSize(fs, v, depth, fields), |prev| + 2
  {
    if IncludeText(fs, fields[1]).Success? {
      WeightPush(fs, v, depth, SplitLines(IncludeText(fs, fields[1]).value), cur, prev);
      ScanOutcome(fs, v, depth, SplitLines(IncludeText(fs, fields[1]).value), [cur] + prev, err);
    }
  }

  /** The loop of `include` that reads every file into one buffer,
      stopping at the first file that cannot be opened or read. */
  method ReadFiles(fs: FileSystem, paths: seq<string>) returns (r: Result<string, Error>)
    ensures r == Gather(fs, paths)
  {
    var buffer := "";
    var i := 0;
    while i < |paths|
      invariant 0 <= i <= |paths|
      invariant Gather(fs, paths[..i]) == Success(buffer)
    {
      var path := paths[i];
      assert paths[..i + 1][..i] == paths[..i];
      match Open(fs, path)
      case OpenFails =>
        GatherFailureSticks(fs, paths, i + 1);
        return Failure(OpenFailed(path));
      case ReadFails =>
        GatherFailureSticks(fs, paths, i + 1);
        return Failure(ReadFailed(path));
      case Readable(content) =>
        buffer := buffer + content + "\n";
      i := i + 1;
    }
    assert paths[..i] == paths;
    return Success(buffer);
  }

  // ---------------------------------------------------------------------
  // The reader's state

  /** `state`: the current source, the suspended ones (most recent first),
      the tokens of the last line read and the recorded error. The variant,
      the file system and the nesting bound are fixed for a reader. */
  class State {
    var scanner: seq<string>
    var previous: seq<seq<string>>
    var fields: seq<string>
    var err: Option<Error>
    const variant: Variant
    const fs: FileSystem
    ghost const depth: nat

    ghost predicate Valid()
      reads this
    {
      AllExpandable(fs, variant, depth, scanner, previous)
    }

    /** A reader of `lines` with nothing suspended and no error. */
    constructor (variant: Variant, fs: FileSystem, ghost depth: nat, lines: seq<string>)
      requires Expandable(fs, variant, lines, depth)
      ensures Valid()
      ensures this.variant == variant && this.fs == fs && this.depth == depth
      ensures scanner == lines && previous == [] && fields == [] && err == None
    {
      this.variant := variant;
      this.fs := fs;
      this.depth := depth;
      scanner := lines;
      previous := [];
      fields := [];
      err := None;
    }

    /** `error`: keeps the first error only. */
    method Error(e: Error)
      modifies this
      ensures err == FirstError(old(err), e)
      ensures scanner == old(scanner) && previous == old(previous) && fields == old(fields)
    {
      if err.None? {
        err := Some(e);
      }
    }

    /** How a plan handler records `e` in this reader's variant. */
    method Fail(e: Error)
      modifies this
      ensures err == Report(variant, old(err), e)
      ensures scanner == old(scanner) && previous == old(previous) && fields == old(fields)
    {
      if variant == Current {
        Error(e);
      } else {
        err := Some(e);
      }
    }

    /** `unparsableToken`: the tokens of the last line are an error. */
    method UnparsableToken()
      modifies this
      ensures err == Report(variant, old(err), UnparseableTokens(fields))
      ensures scanner == old(scanner) && previous == old(previous) && fields == old(fields)
    {
      Fail(UnparseableTokens(fields));
    }

    /** The blank-skipping loop of `scanLine`: takes the first line of the
        current source that is not blank, or reaches its end. */
    method NextLine() returns (line: string)
      modifies this
      ensures SkipBlank(old(scanner)) == [] ==> line == [] && scanner == []
      ensures SkipBlank(old(scanner)) != [] ==>
        line == Trim(SkipBlank(old(scanner))[0]) && line != [] && scanner == SkipBlank(old(scanner))[1..]
      ensures fields == old(fields) && err == old(err) && previous == old(previous)
    {
      line := [];
      while scanner != []
        invariant SkipBlank(scanner) == SkipBlank(old(scanner)) && line == []
        invariant fields == old(fields) && err == old(err) && previous == old(previous)
        decreases |scanner|
      {
        line := Trim(scanner[0]);
        scanner := scanner[1..];
        if line != [] {
          return;
        }
      }
    }

    /** `scanLine`, proved to compute `Scan`. */
    method ScanLine() returns (found: bool)
      requires Valid()
      modifies this
      ensures Valid()
      ensures Scanned(found, scanner, previous, fields, err)
        == Scan(fs, variant, depth, old(scanner), old(previous), old(err))
      decreases Weight(fs, variant, depth, scanner, previous), |previous|
    {
      ScanSkip(fs, variant, depth, scanner, previous, err);
      ghost var cur := SkipBlank(scanner);
      fields := [];
      var line := NextLine();
      if line != [] {
        ScanTokens(fs, variant, depth, cur, previous, err);
        fields := Fields(line);
        if IsInclude(variant, fields) {
          found := Include();
          return;
        }
        found := true;
        return;
      }
      if |previous| > 0 {
        ScanPop(fs, variant, depth, previous, err);
        scanner := previous[0];
        previous := previous[1..];
        found := ScanLine();
        return;
      }
      found := false;
    }

    /** `include`, proved to compute `Include`. */
    method Include() returns (found: bool)
      requires Valid() && IsInclude(variant, fields) && |fields| >= 2
      requires IncludeText(fs, fields[1]).Success? ==>
        Expandable(fs, variant, SplitLines(IncludeText(fs, fields[1]).value), depth)
      modifies this
      ensures Valid()
      ensures Scanned(found, scanner, previous, fields, err)
        == IncludeScan(fs, variant, depth, old(fields), old(scanner), old(previous), old(err))
      decreases Weight(fs, variant, depth, scanner, previous) + IncludedSize(fs, variant, depth, fields), |previous| + 2
    {
      IncludeCases(fs, variant, depth, fields, scanner, previous, err);
      var paths := Glob(fs, fields[1]);
      if |paths| == 0 {
        Error(MatchesNothing(fields[1]));
        return false;
      }
      var read := ReadFiles(fs, paths);
      if read.Failure? {
        Error(read.error);
        return false;
      }
      var buffer := read.value;
      previous := [scanner] + previous;
      scanner := SplitLines(buffer);
      found := ScanLine();
    }
  }
}
