/** One ZFS snapshot as `zfs list -H -p -o name,creation` prints it
    (`zfs/Snapshot.go`). Times are integers counting nanoseconds since the
    Unix epoch, as Go's `time.Time` measures them; ZFS creation times are
    whole seconds. */
module Snapshots {
  import opened Wrappers
  import opened Strings
  import opened Strconv
  import opened Duration

  /** Go's zero `time.Time`: January 1 of year 1, UTC. */
  const ZeroTime: int := -62135596800 * Second

  /** Go's `Time.Sub`: the difference, clamped to the range of a
      `time.Duration`. */
  function Sub(t: int, u: int): int
  {
    if t - u > MaxInt64 then MaxInt64 else if t - u < MinInt64 then MinInt64 else t - u
  }

  /** Clamping never changes how the difference compares with a bound that
      is itself a duration, so the source's comparisons of `Sub` with 0 and
      with one second are comparisons of the exact times. */
  lemma SubCompares(t: int, u: int, bound: int)
    requires MinInt64 < bound < MaxInt64
    ensures Sub(t, u) > bound <==> t - u > bound
    ensures Sub(t, u) >= bound <==> t - u >= bound
  {
  }

  datatype Snapshot = Snapshot(name: string, creation: int, keep: bool)

  /** `ErrMalformedLine`, a `strconv` error, and the sorting error of the
      list reader (both times in seconds). */
  datatype SnapshotError = MalformedLine | ParseError(cause: NumError) | NotSorted(creation: int, last: int)

  /** `NewSnapshotFromLine`: a line of at least 3 bytes holding exactly two
      fields, a name and a non-negative number of seconds. The snapshot is
      not marked to be kept. */
  function ParseSnapshot(line: string): (r: Result<Snapshot, SnapshotError>)
    ensures r.Success? ==> r.value.name != [] && NoSpace(r.value.name) && !r.value.keep
    ensures r.Success? ==> r.value.creation >= 0 && r.value.creation % Second == 0
    ensures r.Success? ==> |Fields(line)| == 2 && Fields(line)[0] == r.value.name
    ensures |Fields(line)| != 2 || Utf8Length(line) < 3 ==> r == Failure(MalformedLine)
    ensures |Fields(line)| == 2 && Utf8Length(line) >= 3 && ParseInt(Fields(line)[1]).Failure? ==>
      r == Failure(ParseError(ParseInt(Fields(line)[1]).error))
  {
    if Utf8Length(line) < 3 then Failure(MalformedLine)
    else
      var fields := Fields(line);
      if |fields| != 2 then Failure(MalformedLine)
      else
        match ParseInt(fields[1])
        case Failure(e) => Failure(ParseError(e))
        case Success(creation) =>
          if creation < 0 then Failure(MalformedLine)
          else
            Multiple(creation, Second);
            Success(Snapshot(fields[0], creation * Second, false))
  }

  /** The line `zfs list` prints for a snapshot. */
  function FormatSnapshot(name: string, seconds: nat): string
  {
    name + "\t" + FormatNat(seconds)
  }

  /** Round trip: a snapshot whose name has no white space reads back from
      its line, created at that many seconds and not kept. */
  lemma ParseFormatSnapshot(name: string, seconds: nat)
    requires name != [] && NoSpace(name) && seconds <= MaxInt64
    ensures ParseSnapshot(FormatSnapshot(name, seconds)) == Success(Snapshot(name, seconds * Second, false))
  {
    var line := FormatSnapshot(name, seconds);
    assert IsSpace('\t');
    FieldsOfPair(name, "\t", FormatNat(seconds));
    ParseFormat(seconds);
  }

  /** A negative creation time is a malformed line. */
  lemma NegativeCreation(name: string, seconds: nat)
    requires name != [] && NoSpace(name) && 0 < seconds <= MaxInt64
    ensures ParseSnapshot(name + " -" + FormatNat(seconds)) == Failure(MalformedLine)
  {
    var num := "-" + FormatNat(seconds);
    assert name + " -" + FormatNat(seconds) == name + " " + num;
    assert NoSpace(num) by {
      assert forall i :: 1 <= i < |num| ==> num[i] == FormatNat(seconds)[i - 1];
    }
    FieldsOfPair(name, " ", num);
    ParseNegative(seconds);
  }

  /** `SnapshotName`: the part after the `@` when the name holds exactly one
      `@`, and otherwise the whole name. */
  function SnapshotName(name: string): (r: string)
    ensures CountChar(name, '@') != 1 ==> r == name
    ensures CountChar(name, '@') == 1 ==> '@' !in r && exists p :: name == p + "@" + r
  {
    var parts := Split(name, '@');
    SplitJoin(name, '@');
    if |parts| != 2 then name
    else
      assert Join(parts, "@") == parts[0] + "@" + parts[1];
      parts[1]
  }

  /** The full name `DATASET@SNAP` of a snapshot names `SNAP`. */
  lemma SnapshotNameOf(dataset: string, snap: string)
    requires '@' !in dataset && '@' !in snap
    ensures SnapshotName(dataset + "@" + snap) == snap
  {
    SplitAround(dataset, snap, '@');
  }

  /** The name cases the source's tests list. */
  lemma SnapshotNameExamples()
    ensures SnapshotName("path@s1") == "s1"
    ensures SnapshotName("s1") == "s1"
    ensures SnapshotName("@s1") == "s1"
    ensures SnapshotName("@") == ""
  {
    SnapshotNameOf("path", "s1");
    SnapshotNameOf("", "s1");
    SnapshotNameOf("", "");
    assert CountChar("s1", '@') == 0;
  }
}
