/** The snapshots of one dataset, oldest first, and the ways the cleaner
    marks the ones to keep (`zfs/SnapshotList.go`). The list is an array of
    snapshot records; marking a snapshot writes its `keep` flag in place. */
module SnapshotLists {
  import opened Wrappers
  import opened Strings
  import opened Strconv
  import opened Duration
  import opened Snapshots

  /** Every creation time is at least the ones before it. */
  predicate Sorted(cs: seq<int>)
  {
    forall i, j :: 0 <= i <= j < |cs| ==> cs[i] <= cs[j]
  }

  function Creations(s: seq<Snapshot>): seq<int>
  {
    seq(|s|, i requires 0 <= i < |s| => s[i].creation)
  }

  // ---------------------------------------------------------------------
  // Reading the output of `zfs list`

  /** The snapshot belongs to the dataset: its name starts with `DATASET@`. */
  predicate InDataset(s: Snapshot, dataset: string)
  {
    HasPrefix(s.name, dataset + "@")
  }

  /** The loop of `NewSnapshotListFromOutput` from `lines` on, with the
      snapshots collected so far and the creation time of the last one
      (Go's zero time before the first). Snapshots of other datasets are
      skipped; a snapshot created more than one second before the previous
      one is an error. */
  function ReadList(lines: seq<string>, dataset: string, last: int, list: seq<Snapshot>): Result<seq<Snapshot>, SnapshotError>
    decreases |lines|
  {
    if lines == [] then Success(list)
    else
      match ParseSnapshot(lines[0])
      case Failure(e) => Failure(e)
      case Success(s) =>
        if !InDataset(s, dataset) then ReadList(lines[1..], dataset, last, list)
        else if Sub(last, s.creation) > Second then Failure(NotSorted(s.creation / Second, last / Second))
        else ReadList(lines[1..], dataset, s.creation, list + [s])
  }

  function ParseList(output: string, dataset: string): Result<seq<Snapshot>, SnapshotError>
  {
    ReadList(SplitLines(output), dataset, ZeroTime, [])
  }

  /** `NewSnapshotListFromOutput`, proved to compute `ParseList`. */
  method NewSnapshotListFromOutput(output: string, dataset: string) returns (r: Result<seq<Snapshot>, SnapshotError>)
    ensures r == ParseList(output, dataset)
  {
    var lines := SplitLines(output);
    var list: seq<Snapshot> := [];
    var last := ZeroTime;
    var i := 0;
    while i < |lines|
      invariant 0 <= i <= |lines|
      invariant ReadList(lines[i..], dataset, last, list) == ParseList(output, dataset)
    {
      assert lines[i..][0] == lines[i] && lines[i..][1..] == lines[i + 1..];
      var s := ParseSnapshot(lines[i]);
      if s.Failure? {
        return Failure(s.error);
      }
      if !InDataset(s.value, dataset) {
        i := i + 1;
        continue;
      }
      if Sub(last, s.value.creation) > Second {
        return Failure(NotSorted(s.value.creation / Second, last / Second));
      }
      last := s.value.creation;
      list := list + [s.value];
      i := i + 1;
    }
    assert lines[i..] == [];
    return Success(list);
  }

  /** Every line is a snapshot line. */
  predicate AllParse(lines: seq<string>)
  {
    forall k :: 0 <= k < |lines| ==> ParseSnapshot(lines[k]).Success?
  }

  /** The snapshots of the dataset that the lines describe, in order. */
  function Matching(lines: seq<string>, dataset: string): seq<Snapshot>
    requires AllParse(lines)
    decreases |lines|
  {
    if lines == [] then []
    else
      var s := ParseSnapshot(lines[0]).value;
      var rest := Matching(lines[1..], dataset);
      if InDataset(s, dataset) then [s] + rest else rest
  }

  /** Each snapshot is created at most one second before the one before it
      (the first at most one second before `last`). */
  predicate Tolerant(last: int, ss: seq<Snapshot>)
    decreases |ss|
  {
    ss == [] || (last - ss[0].creation <= Second && Tolerant(ss[0].creation, ss[1..]))
  }

  lemma AllParseTail(lines: seq<string>)
    requires lines != [] && AllParse(lines)
    ensures AllParse(lines[1..])
  {
    assert forall k :: 0 <= k < |lines| - 1 ==> lines[1..][k] == lines[k + 1];
  }

  lemma AllParseCons(lines: seq<string>)
    requires lines != []
    ensures AllParse(lines) <==> ParseSnapshot(lines[0]).Success? && AllParse(lines[1..])
  {
    if ParseSnapshot(lines[0]).Success? && AllParse(lines[1..]) {
      forall k | 0 <= k < |lines|
        ensures ParseSnapshot(lines[k]).Success?
      {
        if k > 0 {
          assert lines[k] == lines[1..][k - 1];
        }
      }
    }
    if AllParse(lines) {
      AllParseTail(lines);
    }
  }

  /** The reader succeeds exactly when every line is a snapshot line and the
      dataset's snapshots are in order up to one second, and then it returns
      exactly the dataset's snapshots in the order of the output. */
  lemma {:induction false} ReadListMeaning(lines: seq<string>, dataset: string, last: int, list: seq<Snapshot>)
    ensures ReadList(lines, dataset, last, list).Success? <==>
      AllParse(lines) && Tolerant(last, Matching(lines, dataset))
    ensures ReadList(lines, dataset, last, list).Success? ==>
      ReadList(lines, dataset, last, list).value == list + Matching(lines, dataset)
    decreases |lines|, 1
  {
    if lines == [] {
      assert list + [] == list;
    } else {
      AllParseCons(lines);
      var p := ParseSnapshot(lines[0]);
      if p.Success? {
        if !InDataset(p.value, dataset) {
          ReadListMeaning(lines[1..], dataset, last, list);
        } else {
          ReadListTakes(lines, dataset, last, list);
        }
      }
    }
  }

  /** The step of `ReadListMeaning` for a snapshot of the dataset. */
  lemma {:induction false} ReadListTakes(lines: seq<string>, dataset: string, last: int, list: seq<Snapshot>)
    requires lines != [] && ParseSnapshot(lines[0]).Success? && InDataset(ParseSnapshot(lines[0]).value, dataset)
    ensures ReadList(lines, dataset, last, list).Success? <==>
      AllParse(lines) && Tolerant(last, Matching(lines, dataset))
    ensures ReadList(lines, dataset, last, list).Success? ==>
      ReadList(lines, dataset, last, list).value == list + Matching(lines, dataset)
    decreases |lines|, 0
  {
    var s := ParseSnapshot(lines[0]).value;
    AllParseCons(lines);
    ReadListNext(lines, dataset, last, list);
    if AllParse(lines) {
      var rest := Matching(lines[1..], dataset);
      MatchingNext(lines, dataset);
      TolerantCons(last, s, rest);
      if last - s.creation <= Second {
        ReadListMeaning(lines[1..], dataset, s.creation, list + [s]);
        assert list + [s] + rest == list + ([s] + rest);
      }
    } else if last - s.creation <= Second {
      ReadListMeaning(lines[1..], dataset, s.creation, list + [s]);
    }
  }

  /** One line of `ReadList` that is a snapshot line. */
  lemma ReadListNext(lines: seq<string>, dataset: string, last: int, list: seq<Snapshot>)
    requires lines != [] && ParseSnapshot(lines[0]).Success?
    ensures var s := ParseSnapshot(lines[0]).value;
      ReadList(lines, dataset, last, list)
        == if !InDataset(s, dataset) then ReadList(lines[1..], dataset, last, list)
           else if last - s.creation > Second then Failure(NotSorted(s.creation / Second, last / Second))
           else ReadList(lines[1..], dataset, s.creation, list + [s])
  {
    SubCompares(last, ParseSnapshot(lines[0]).value.creation, Second);
  }

  /** One line of `Matching`. */
  lemma MatchingNext(lines: seq<string>, dataset: string)
    requires lines != [] && AllParse(lines)
    ensures AllParse(lines[1..])
    ensures var s := ParseSnapshot(lines[0]).value;
      Matching(lines, dataset)
        == if InDataset(s, dataset) then [s] + Matching(lines[1..], dataset) else Matching(lines[1..], dataset)
  {
    AllParseTail(lines);
  }

  /** `Tolerant` of a list with a first snapshot. */
  lemma TolerantCons(last: int, s: Snapshot, rest: seq<Snapshot>)
    ensures Tolerant(last, [s] + rest) <==> last - s.creation <= Second && Tolerant(s.creation, rest)
  {
    assert ([s] + rest)[0] == s && ([s] + rest)[1..] == rest;
  }

  /** The first line that is not a snapshot line. */
  function FirstBad(lines: seq<string>): (k: nat)
    requires !AllParse(lines)
    ensures k < |lines| && ParseSnapshot(lines[k]).Failure? && AllParse(lines[..k])
  {
    var k := FirstBadFrom(lines, 0);
    PrefixParses(lines, k);
    k
  }

  /** The first line at or after `i` that is not a snapshot line, or the
      number of lines when every one from `i` on is. */
  function FirstBadFrom(lines: seq<string>, i: nat): (k: nat)
    requires i <= |lines|
    ensures i <= k <= |lines|
    ensures k < |lines| ==> ParseSnapshot(lines[k]).Failure?
    ensures forall j :: i <= j < k ==> ParseSnapshot(lines[j]).Success?
    decreases |lines| - i
  {
    if i == |lines| || ParseSnapshot(lines[i]).Failure? then i else FirstBadFrom(lines, i + 1)
  }

  /** The lines before `k` are snapshot lines. */
  lemma PrefixParses(lines: seq<string>, k: nat)
    requires k <= |lines| && forall j :: 0 <= j < k ==> ParseSnapshot(lines[j]).Success?
    ensures AllParse(lines[..k])
  {
    var prefix := lines[..k];
    forall j | 0 <= j < |prefix|
      ensures ParseSnapshot(prefix[j]).Success?
    {
      assert prefix[j] == lines[j];
    }
  }

  /** Only one line is the first that is not a snapshot line. */
  lemma FirstBadUnique(lines: seq<string>, k: nat)
    requires k < |lines| && ParseSnapshot(lines[k]).Failure? && AllParse(lines[..k])
    ensures !AllParse(lines) && FirstBad(lines) == k
  {
    var f := FirstBad(lines);
    forall j | 0 <= j < k
      ensures ParseSnapshot(lines[j]).Success?
    {
      assert lines[..k][j] == lines[j];
    }
    forall j | 0 <= j < f
      ensures ParseSnapshot(lines[j]).Success?
    {
      assert lines[..f][j] == lines[j];
    }
  }

  /** A line that parses, followed by `k` more that do. */
  lemma AllParsePrefix(lines: seq<string>, k: nat)
    requires k < |lines| && ParseSnapshot(lines[0]).Success? && AllParse(lines[1..][..k])
    ensures AllParse(lines[..k + 1])
  {
    var prefix := lines[..k + 1];
    forall j | 0 <= j < |prefix|
      ensures ParseSnapshot(prefix[j]).Success?
    {
      if j > 0 {
        assert prefix[j] == lines[1..][..k][j - 1];
      }
    }
  }

  /** Which error the reader fails with: a line that is not a snapshot line
      fails with its own error unless the dataset's snapshots before it are
      already out of order, and snapshots out of order by more than a second
      fail with "output does not appear sorted". */
  lemma ReadListFailure(lines: seq<string>, dataset: string, last: int, list: seq<Snapshot>)
    ensures AllParse(lines) && !Tolerant(last, Matching(lines, dataset)) ==>
      ReadList(lines, dataset, last, list).Failure? && ReadList(lines, dataset, last, list).error.NotSorted?
    ensures !AllParse(lines) && Tolerant(last, Matching(lines[..FirstBad(lines)], dataset)) ==>
      ReadList(lines, dataset, last, list) == Failure(ParseSnapshot(lines[FirstBad(lines)]).error)
    ensures !AllParse(lines) && !Tolerant(last, Matching(lines[..FirstBad(lines)], dataset)) ==>
      ReadList(lines, dataset, last, list).Failure? && ReadList(lines, dataset, last, list).error.NotSorted?
  {
    if AllParse(lines) {
      if !Tolerant(last, Matching(lines, dataset)) {
        ReadListUnsorted(lines, dataset, last, list);
      }
    } else {
      ReadListBadLine(lines, dataset, last, list);
    }
  }

  /** Snapshot lines out of order by more than a second: "output does not
      appear sorted". */
  lemma {:induction false} ReadListUnsorted(lines: seq<string>, dataset: string, last: int, list: seq<Snapshot>)
    requires AllParse(lines) && !Tolerant(last, Matching(lines, dataset))
    ensures ReadList(lines, dataset, last, list).Failure? && ReadList(lines, dataset, last, list).error.NotSorted?
    decreases |lines|
  {
    var s := ParseSnapshot(lines[0]).value;
    MatchingNext(lines, dataset);
    ReadListNext(lines, dataset, last, list);
    if !InDataset(s, dataset) {
      ReadListUnsorted(lines[1..], dataset, last, list);
    } else {
      TolerantCons(last, s, Matching(lines[1..], dataset));
      if last - s.creation <= Second {
        ReadListUnsorted(lines[1..], dataset, s.creation, list + [s]);
      }
    }
  }

  /** A line that is not a snapshot line: its error, unless the snapshots
      before it are already out of order. */
  lemma {:induction false} ReadListBadLine(lines: seq<string>, dataset: string, last: int, list: seq<Snapshot>)
    requires !AllParse(lines)
    ensures Tolerant(last, Matching(lines[..FirstBad(lines)], dataset)) ==>
      ReadList(lines, dataset, last, list) == Failure(ParseSnapshot(lines[FirstBad(lines)]).error)
    ensures !Tolerant(last, Matching(lines[..FirstBad(lines)], dataset)) ==>
      ReadList(lines, dataset, last, list).Failure? && ReadList(lines, dataset, last, list).error.NotSorted?
    decreases |lines|
  {
    var p := ParseSnapshot(lines[0]);
    if p.Failure? {
      assert lines[..0] == [];
      FirstBadUnique(lines, 0);
    } else {
      var s := p.value;
      MatchingBeforeBad(lines, dataset);
      ReadListNext(lines, dataset, last, list);
      if !InDataset(s, dataset) {
        ReadListBadLine(lines[1..], dataset, last, list);
      } else {
        TolerantCons(last, s, Matching(lines[1..][..FirstBad(lines[1..])], dataset));
        if last - s.creation <= Second {
          ReadListBadLine(lines[1..], dataset, s.creation, list + [s]);
        }
      }
    }
  }

  /** The dataset's snapshots before the first bad line, one line at a time. */
  lemma MatchingBeforeBad(lines: seq<string>, dataset: string)
    requires !AllParse(lines) && ParseSnapshot(lines[0]).Success?
    ensures !AllParse(lines[1..]) && FirstBad(lines) == FirstBad(lines[1..]) + 1
    ensures var s := ParseSnapshot(lines[0]).value;
      Matching(lines[..FirstBad(lines)], dataset)
        == if InDataset(s, dataset) then [s] + Matching(lines[1..][..FirstBad(lines[1..])], dataset)
           else Matching(lines[1..][..FirstBad(lines[1..])], dataset)
  {
    AllParseCons(lines);
    var k := FirstBad(lines[1..]);
    AllParsePrefix(lines, k);
    assert lines[1..][k] == lines[k + 1];
    FirstBadUnique(lines, k + 1);
    assert lines[..k + 1][0] == lines[0] && lines[..k + 1][1..] == lines[1..][..k];
  }

  /** Every snapshot the reader returns belongs to the dataset, is not yet
      marked to be kept, and was created a whole number of seconds after
      the epoch. */
  lemma {:induction false} MatchingShape(lines: seq<string>, dataset: string)
    requires AllParse(lines)
    ensures forall k :: 0 <= k < |Matching(lines, dataset)| ==>
      var s := Matching(lines, dataset)[k];
      InDataset(s, dataset) && !s.keep && s.creation >= 0 && s.creation % Second == 0
    decreases |lines|
  {
    if lines != [] {
      AllParseTail(lines);
      MatchingShape(lines[1..], dataset);
    }
  }

  /** The output of `zfs list` for snapshots given by name and seconds. */
  function Output(names: seq<string>, seconds: seq<nat>): string
    requires |names| == |seconds|
  {
    Unlines(seq(|names|, k requires 0 <= k < |names| => FormatSnapshot(names[k], seconds[k])))
  }

  lemma FormatSnapshotPlain(name: string, seconds: nat)
    requires NoSpace(name)
    ensures PlainLine(FormatSnapshot(name, seconds))
  {
    var line := FormatSnapshot(name, seconds);
    var digits := FormatNat(seconds);
    assert line == name + "\t" + digits;
    forall k | 0 <= k < |line|
      ensures line[k] != '\n'
    {
      if k < |name| {
        assert line[k] == name[k];
      } else if k > |name| {
        assert line[k] == digits[k - |name| - 1];
      }
    }
    assert line[|line| - 1] == digits[|digits| - 1];
  }

  /** The lines of an output listing are the snapshots' lines. */
  lemma OutputLines(names: seq<string>, seconds: seq<nat>)
    requires |names| == |seconds|
    requires forall k :: 0 <= k < |names| ==> NoSpace(names[k])
    ensures |SplitLines(Output(names, seconds))| == |names|
    ensures forall k :: 0 <= k < |names| ==>
      SplitLines(Output(names, seconds))[k] == FormatSnapshot(names[k], seconds[k])
  {
    var lines := seq(|names|, k requires 0 <= k < |names| => FormatSnapshot(names[k], seconds[k]));
    forall k | 0 <= k < |names|
      ensures PlainLine(lines[k])
    {
      FormatSnapshotPlain(names[k], seconds[k]);
    }
    SplitLinesUnlines(lines);
  }

  /** One turn of the reader over a snapshot of the dataset that is in
      order. */
  lemma ReadStep(lines: seq<string>, dataset: string, last: int, list: seq<Snapshot>, s: Snapshot)
    requires lines != [] && ParseSnapshot(lines[0]) == Success(s) && InDataset(s, dataset)
    requires last - s.creation <= Second
    ensures ReadList(lines, dataset, last, list) == ReadList(lines[1..], dataset, s.creation, list + [s])
  {
    SubCompares(last, s.creation, Second);
  }

  /** Two snapshot lines of the dataset, the second created one second
      before the first, are read as they stand. */
  lemma ReadTwo(lines: seq<string>, dataset: string, s0: Snapshot, s1: Snapshot)
    requires |lines| == 2 && ParseSnapshot(lines[0]) == Success(s0) && ParseSnapshot(lines[1]) == Success(s1)
    requires InDataset(s0, dataset) && InDataset(s1, dataset)
    requires s0.creation >= 0 && s1.creation == s0.creation - Second
    ensures ReadList(lines, dataset, ZeroTime, []) == Success([s0, s1])
  {
    ReadStep(lines, dataset, ZeroTime, [], s0);
    assert lines[1..][0] == lines[1];
    ReadStep(lines[1..], dataset, s0.creation, [s0], s1);
    assert lines[1..][1..] == [];
    assert [] + [s0] == [s0] && [s0] + [s1] == [s0, s1];
    assert ReadList([], dataset, s1.creation, [s0, s1]) == Success([s0, s1]);
  }

  /** The one second of slack lets through a listing whose second snapshot
      is a second older than its first: the list returned is then not sorted,
      and its first element, which `Oldest` names, is the newer one. */
  lemma DescendingAccepted(dataset: string, a: string, b: string, c: nat)
    requires dataset != [] && NoSpace(dataset) && NoSpace(a) && NoSpace(b)
    requires 1 <= c < MaxInt64
    ensures var names := [dataset + "@" + a, dataset + "@" + b];
      ParseList(Output(names, [c + 1, c]), dataset)
        == Success([Snapshot(names[0], (c + 1) * Second, false), Snapshot(names[1], c * Second, false)])
    ensures var names := [dataset + "@" + a, dataset + "@" + b];
      !Sorted(Creations(ParseList(Output(names, [c + 1, c]), dataset).value))
  {
    var names := [dataset + "@" + a, dataset + "@" + b];
    NoSpaceJoin(dataset, a);
    NoSpaceJoin(dataset, b);
    OutputLines(names, [c + 1, c]);
    assert names[0][..|dataset + "@"|] == dataset + "@";
    assert names[1][..|dataset + "@"|] == dataset + "@";
    var s0 := Snapshot(names[0], (c + 1) * Second, false);
    var s1 := Snapshot(names[1], c * Second, false);
    var lines := SplitLines(Output(names, [c + 1, c]));
    assert lines[0] == FormatSnapshot(names[0], c + 1);
    assert lines[1] == FormatSnapshot(names[1], c);
    ParseFormatSnapshot(names[0], c + 1);
    ParseFormatSnapshot(names[1], c);
    assert InDataset(s0, dataset) && InDataset(s1, dataset);
    ReadTwo(lines, dataset, s0, s1);
    var cs := Creations([s0, s1]);
    assert cs[0] == s0.creation && cs[1] == s1.creation;
  }

  lemma {:induction false} TolerantSteps(last: int, ss: seq<Snapshot>)
    requires Tolerant(last, ss)
    ensures ss != [] ==> last - ss[0].creation <= Second
    ensures forall k :: 0 < k < |ss| ==> ss[k - 1].creation - ss[k].creation <= Second
    decreases |ss|
  {
    if ss != [] {
      TolerantSteps(ss[0].creation, ss[1..]);
      forall k | 0 < k < |ss|
        ensures ss[k - 1].creation - ss[k].creation <= Second
      {
        if k > 1 {
          assert ss[k - 1] == ss[1..][k - 2] && ss[k] == ss[1..][k - 1];
        }
      }
    }
  }

  /** What the reader returns is sorted by creation time up to one second:
      no snapshot is more than a second older than the one before it. The
      snapshots all belong to the dataset and none is marked to be kept. */
  lemma ParseListNearlySorted(output: string, dataset: string)
    ensures ParseList(output, dataset).Success? ==>
      var ss := ParseList(output, dataset).value;
      (forall k :: 0 < k < |ss| ==> ss[k - 1].creation - ss[k].creation <= Second)
      && (forall k :: 0 <= k < |ss| ==> InDataset(ss[k], dataset) && !ss[k].keep)
  {
    var lines := SplitLines(output);
    ReadListMeaning(lines, dataset, ZeroTime, []);
    if ParseList(output, dataset).Success? {
      assert [] + Matching(lines, dataset) == Matching(lines, dataset);
      TolerantSteps(ZeroTime, Matching(lines, dataset));
      MatchingShape(lines, dataset);
    }
  }

  /** When the dataset's snapshots never go back in time, the reader accepts
      them and returns them sorted. */
  lemma ParseListSorted(output: string, dataset: string)
    requires AllParse(SplitLines(output))
    requires Sorted(Creations(Matching(SplitLines(output), dataset)))
    ensures ParseList(output, dataset) == Success(Matching(SplitLines(output), dataset))
    ensures Sorted(Creations(ParseList(output, dataset).value))
  {
    var lines := SplitLines(output);
    var ss := Matching(lines, dataset);
    MatchingShape(lines, dataset);
    SortedTolerant(ZeroTime, ss);
    ReadListMeaning(lines, dataset, ZeroTime, []);
    assert [] + ss == ss;
  }

  lemma {:induction false} SortedTolerant(last: int, ss: seq<Snapshot>)
    requires Sorted(Creations(ss)) && forall k :: 0 <= k < |ss| ==> last <= ss[k].creation
    ensures Tolerant(last, ss)
    decreases |ss|
  {
    if ss != [] {
      var cs, rest := Creations(ss), Creations(ss[1..]);
      assert cs[0] == ss[0].creation;
      forall k | 0 <= k < |ss| - 1
        ensures ss[0].creation <= ss[1..][k].creation && rest[k] == cs[k + 1]
      {
        assert cs[k + 1] == ss[k + 1].creation;
      }
      SortedTolerant(ss[0].creation, ss[1..]);
    }
  }

  lemma NoSpaceJoin(dataset: string, snap: string)
    requires dataset != [] && NoSpace(dataset) && NoSpace(snap)
    ensures dataset + "@" + snap != [] && NoSpace(dataset + "@" + snap)
  {
    var name := dataset + "@" + snap;
    forall k | 0 <= k < |name|
      ensures !IsSpace(name[k])
    {
      if k < |dataset| {
        assert name[k] == dataset[k];
      } else if k > |dataset| {
        assert name[k] == snap[k - |dataset| - 1];
      }
    }
  }

  // ---------------------------------------------------------------------
  // Looking snapshots up

  /** The first index at or after `i` whose creation time is at or after
      `from`. */
  function NextFrom(cs: seq<int>, from: int, i: nat): (r: Option<nat>)
    requires i <= |cs|
    ensures r.Some? ==> i <= r.value < |cs| && cs[r.value] >= from
    ensures r.Some? ==> forall j :: i <= j < r.value ==> cs[j] < from
    ensures r.None? ==> forall j :: i <= j < |cs| ==> cs[j] < from
    decreases |cs| - i
  {
    if i == |cs| then None else if cs[i] >= from then Some(i) else NextFrom(cs, from, i + 1)
  }

  /** The first snapshot, in list order, created at or after `from`. */
  function NextIndex(cs: seq<int>, from: int): Option<nat>
  {
    NextFrom(cs, from, 0)
  }

  /** `Next`, proved to find `NextIndex`; the pointer Go returns is an index
      here, and nil is `None`. */
  method Next(l: array<Snapshot>, from: int) returns (r: Option<nat>)
    ensures r == NextIndex(Creations(l[..]), from)
  {
    ghost var cs := Creations(l[..]);
    for i := 0 to l.Length
      invariant NextIndex(cs, from) == NextFrom(cs, from, i)
    {
      SubCompares(l[i].creation, from, 0);
      if Sub(l[i].creation, from) >= 0 {
        return Some(i);
      }
    }
    return None;
  }

  /** In a sorted list, the snapshot `Next` finds is the oldest one created
      at or after `from`. */
  lemma NextIsOldestAfter(cs: seq<int>, from: int)
    requires Sorted(cs)
    ensures NextIndex(cs, from).Some? ==>
      forall j :: 0 <= j < |cs| && cs[j] >= from ==> cs[NextIndex(cs, from).value] <= cs[j]
  {
  }

  /** `Oldest`: the first snapshot, or nil for an empty list. */
  function Oldest(l: array<Snapshot>): (r: Option<nat>)
    reads l
  {
    if l.Length < 1 then None else Some(0)
  }

  /** `Latest`: the last snapshot, or nil for an empty list. */
  function Latest(l: array<Snapshot>): (r: Option<nat>)
    reads l
  {
    if l.Length < 1 then None else Some(l.Length - 1)
  }

  /** In a sorted list `Oldest` is created no later, and `Latest` no
      earlier, than any snapshot; both are nil exactly for the empty list. */
  lemma OldestLatestBounds(l: array<Snapshot>)
    requires Sorted(Creations(l[..]))
    ensures Oldest(l).Some? <==> l.Length > 0
    ensures Latest(l).Some? <==> l.Length > 0
    ensures Oldest(l).Some? ==> forall i :: 0 <= i < l.Length ==> l[Oldest(l).value].creation <= l[i].creation
    ensures Latest(l).Some? ==> forall i :: 0 <= i < l.Length ==> l[i].creation <= l[Latest(l).value].creation
  {
    var cs := Creations(l[..]);
    assert forall i :: 0 <= i < l.Length ==> cs[i] == l[i].creation;
  }

  // ---------------------------------------------------------------------
  // Marking snapshots to keep

  /** The list with the snapshots at the indices `picked` marked to be kept;
      nothing else changes. */
  function Mark(s: seq<Snapshot>, picked: set<nat>): seq<Snapshot>
  {
    seq(|s|, i requires 0 <= i < |s| => s[i].(keep := s[i].keep || i in picked))
  }

  /** Marking never unmarks, never changes a name or a creation time, and
      marks exactly the picked snapshots besides those already marked. */
  lemma MarkMeaning(s: seq<Snapshot>, picked: set<nat>)
    ensures |Mark(s, picked)| == |s| && Creations(Mark(s, picked)) == Creations(s)
    ensures forall i :: 0 <= i < |s| ==>
      Mark(s, picked)[i].name == s[i].name
      && Mark(s, picked)[i].creation == s[i].creation
      && (Mark(s, picked)[i].keep <==> s[i].keep || i in picked)
  {
  }

  /** Marking the same snapshots twice is marking them once. */
  lemma MarkIdempotent(s: seq<Snapshot>, picked: set<nat>)
    ensures Mark(Mark(s, picked), picked) == Mark(s, picked)
  {
  }

  /** The indices from `lo` up to but not including `hi`. */
  function Range(lo: nat, hi: nat): (r: set<nat>)
    ensures forall i :: i in r <==> lo <= i < hi
    decreases hi - lo
  {
    if lo >= hi then {} else {lo} + Range(lo + 1, hi)
  }

  /** Go's 64-bit `int` subtraction: the exact difference taken modulo
      2^64 into the range of `int64`. */
  function Sub64(a: int, b: int): (r: int)
    ensures MinInt64 <= r <= MaxInt64
    ensures (r - (a - b)) % 0x1_0000_0000_0000_0000 == 0
    ensures MinInt64 <= a - b <= MaxInt64 ==> r == a - b
  {
    (a - b - MinInt64) % 0x1_0000_0000_0000_0000 + MinInt64
  }

  /** Within Go's `int` range, `len - num` wraps only above `MaxInt64`, and
      then it wraps to a negative number. */
  lemma SubWraps(n: nat, num: int)
    requires n <= MaxInt64 && MinInt64 <= num <= MaxInt64
    ensures n - num <= MaxInt64 ==> Sub64(n, num) == n - num
    ensures n - num > MaxInt64 ==> Sub64(n, num) == n - num - 0x1_0000_0000_0000_0000 < 0
  {
    if n - num > MaxInt64 {
      var d := n - num - MinInt64;
      assert 0x1_0000_0000_0000_0000 <= d < 2 * 0x1_0000_0000_0000_0000;
      assert d % 0x1_0000_0000_0000_0000 == d - 0x1_0000_0000_0000_0000;
    }
  }

  /** The indices `KeepLatest` marks in a list of `n`: from `len - num`,
      computed in 64 bits and raised to 0 when negative. */
  function LatestSet(n: nat, num: int): set<nat>
  {
    var start := Sub64(n, num);
    if start < 0 then Range(0, n) else Range(start, n)
  }

  /** `KeepLatest`. */
  method KeepLatest(l: array<Snapshot>, num: int)
    requires l.Length <= MaxInt64 && MinInt64 <= num <= MaxInt64
    modifies l
    ensures l[..] == Mark(old(l[..]), LatestSet(l.Length, num))
  {
    var start := Sub64(l.Length, num);
    if start < 0 {
      start := 0;
    }
    var i := start;
    while i < l.Length
      invariant start <= i && (start <= l.Length ==> i <= l.Length)
      invariant l[..] == Mark(old(l[..]), Range(start, i))
    {
      l[i] := l[i].(keep := true);
      i := i + 1;
    }
  }

  /** In a sorted list `KeepLatest` keeps the newest snapshots: each one it
      marks is created no earlier than each one it leaves alone. It marks the
      indices from `len - num` on (none for num <= 0, all for num >= len),
      except that when `len - num` overflows 64 bits it wraps to a negative
      start and every snapshot is marked. */
  lemma LatestAreNewest(s: seq<Snapshot>, num: int)
    requires Sorted(Creations(s))
    requires |s| <= MaxInt64 && MinInt64 <= num <= MaxInt64
    ensures forall i, j :: 0 <= i < |s| && 0 <= j < |s| && i in LatestSet(|s|, num) && j !in LatestSet(|s|, num) ==>
      s[j].creation <= s[i].creation
    ensures |s| - num <= MaxInt64 ==> forall i :: i in LatestSet(|s|, num) <==> 0 <= i < |s| && i >= |s| - num
    ensures |s| - num > MaxInt64 ==> forall i :: i in LatestSet(|s|, num) <==> 0 <= i < |s|
  {
    SubWraps(|s|, num);
    var cs := Creations(s);
    assert forall i :: 0 <= i < |s| ==> cs[i] == s[i].creation;
  }

  /** The smallest `num` keeps every snapshot of a one-snapshot list:
      `1 - MinInt64` wraps to `MinInt64 + 1`. */
  lemma LatestWrapsAround()
    ensures LatestSet(1, MinInt64) == {0}
  {
    SubWraps(1, MinInt64);
    assert 0 in Range(0, 1);
  }

  /** The first `num` indices of a list of `n`. */
  function OldestSet(n: nat, num: int): set<nat>
  {
    if num < n then Range(0, if num < 0 then 0 else num) else Range(0, n)
  }

  /** `KeepOldest`. */
  method KeepOldest(l: array<Snapshot>, num: int)
    modifies l
    ensures l[..] == Mark(old(l[..]), OldestSet(l.Length, num))
  {
    var i := 0;
    while i < num && i < l.Length
      invariant 0 <= i <= l.Length && (i == 0 || i <= num)
      invariant l[..] == Mark(old(l[..]), Range(0, i))
    {
      l[i] := l[i].(keep := true);
      i := i + 1;
    }
  }

  /** In a sorted list `KeepOldest` keeps the oldest snapshots: the first
      `num`, or all of them when there are fewer. */
  lemma OldestAreOldest(s: seq<Snapshot>, num: int)
    requires Sorted(Creations(s))
    ensures forall i, j :: 0 <= i < |s| && 0 <= j < |s| && i in OldestSet(|s|, num) && j !in OldestSet(|s|, num) ==>
      s[i].creation <= s[j].creation
    ensures forall i :: i in OldestSet(|s|, num) <==> 0 <= i < |s| && i < num
  {
    var cs := Creations(s);
    assert forall i :: 0 <= i < |s| ==> cs[i] == s[i].creation;
  }

  /** The snapshots whose short name is one of `names`. */
  function NamedSet(s: seq<Snapshot>, names: seq<string>): set<nat>
  {
    set i: nat | i < |s| && SnapshotName(s[i].name) in names
  }

  /** `KeepNamed`: the names are first collected into a lookup table. */
  method KeepNamed(l: array<Snapshot>, names: seq<string>)
    modifies l
    ensures l[..] == Mark(old(l[..]), NamedSet(old(l[..]), names))
  {
    var index: map<string, bool> := map[];
    for k := 0 to |names|
      invariant forall x :: x in index <==> x in names[..k]
      invariant forall x :: x in index ==> index[x]
    {
      index := index[names[k] := true];
    }
    assert names[..|names|] == names;
    ghost var picked: set<nat> := {};
    for i := 0 to l.Length
      invariant picked == set j: nat | j < i && SnapshotName(old(l[..])[j].name) in names
      invariant l[..] == Mark(old(l[..]), picked)
    {
      var short := SnapshotName(l[i].name);
      if short in index && index[short] {
        MarkOne(old(l[..]), picked, i);
        l[i] := l[i].(keep := true);
        picked := picked + {i};
      }
    }
  }

  /** A snapshot `DATASET@SNAP` is kept by name exactly when `SNAP` is one
      of the names. */
  lemma NamedKeepsSnapshot(s: seq<Snapshot>, names: seq<string>, i: nat, dataset: string, snap: string)
    requires i < |s| && s[i].name == dataset + "@" + snap && '@' !in dataset && '@' !in snap
    ensures i in NamedSet(s, names) <==> snap in names
    ensures NamedSet(s, []) == {}
  {
    SnapshotNameOf(dataset, snap);
  }

  /** `ResetSieve`: every snapshot is marked for deletion. */
  method ResetSieve(l: array<Snapshot>)
    modifies l
    ensures l[..] == Reset(old(l[..]))
  {
    for i := 0 to l.Length
      invariant forall j :: 0 <= j < i ==> l[j] == old(l[j]).(keep := false)
      invariant forall j :: i <= j < l.Length ==> l[j] == old(l[j])
    {
      l[i] := l[i].(keep := false);
    }
    assert forall j :: 0 <= j < l.Length ==> l[..][j] == Reset(old(l[..]))[j];
  }

  function Reset(s: seq<Snapshot>): seq<Snapshot>
  {
    seq(|s|, i requires 0 <= i < |s| => s[i].(keep := false))
  }

  /** After a reset the marks are exactly the ones made since. */
  lemma ResetThenMark(s: seq<Snapshot>, picked: set<nat>)
    ensures Creations(Reset(s)) == Creations(s)
    ensures forall i :: 0 <= i < |s| ==> (Mark(Reset(s), picked)[i].keep <==> i in picked)
  {
  }

  // ---------------------------------------------------------------------
  // The sieve

  /** The number of creation times at or after `from`. */
  function Count(cs: seq<int>, from: int): nat
    decreases |cs|
  {
    if cs == [] then 0 else (if cs[0] >= from then 1 else 0) + Count(cs[1..], from)
  }

  /** Moving `from` past a creation time at or after it counts fewer. */
  lemma {:induction false} CountDrops(cs: seq<int>, from: int, i: nat, later: int)
    requires i < |cs| && from <= cs[i] < later
    ensures Count(cs, later) < Count(cs, from)
    decreases |cs|
  {
    if i == 0 {
      CountMonotone(cs[1..], from, later);
    } else {
      CountDrops(cs[1..], from, i - 1, later);
    }
  }

  lemma {:induction false} CountMonotone(cs: seq<int>, from: int, later: int)
    requires from <= later
    ensures Count(cs, later) <= Count(cs, from)
    decreases |cs|
  {
    if cs != [] {
      CountMonotone(cs[1..], from, later);
    }
  }

  /** The snapshots the loop of `Sieve` visits from `from`: the first one
      created at or after `from`, then the first one at or after its
      creation plus `frequency`, and so on until there is none. */
  function Walk(cs: seq<int>, from: int, frequency: int): (picks: seq<nat>)
    requires frequency > 0
    ensures forall k :: 0 <= k < |picks| ==> picks[k] < |cs| && cs[picks[k]] >= from
    decreases Count(cs, from)
  {
    match NextIndex(cs, from)
    case None => []
    case Some(i) =>
      CountDrops(cs, from, i, cs[i] + frequency);
      [i] + Walk(cs, cs[i] + frequency, frequency)
  }

  /** The snapshots `Sieve` marks: below one second of frequency, all those
      created at or after `start`; otherwise the ones its walk visits. */
  function SieveSet(s: seq<Snapshot>, start: int, frequency: int): set<nat>
  {
    if frequency < Second then set i: nat | i < |s| && s[i].creation >= start
    else set k | k in Walk(Creations(s), start, frequency)
  }

  /** `Sieve`. */
  method Sieve(l: array<Snapshot>, start: int, frequency: int)
    modifies l
    ensures l[..] == Mark(old(l[..]), SieveSet(old(l[..]), start, frequency))
  {
    if frequency < Second {
      KeepFrom(l, start);
    } else {
      SieveWalk(l, start, frequency);
    }
  }

  /** The branch of `Sieve` below one second of frequency: ZFS records
      creation times in whole seconds, so every snapshot at or after `start`
      is kept. */
  method KeepFrom(l: array<Snapshot>, start: int)
    modifies l
    ensures l[..] == Mark(old(l[..]), set i: nat | i < |old(l[..])| && old(l[..])[i].creation >= start)
  {
    for i := 0 to l.Length
      invariant l[..] == Mark(old(l[..]), set j: nat | j < i && old(l[..])[j].creation >= start)
    {
      SubCompares(l[i].creation, start, 0);
      if Sub(l[i].creation, start) >= 0 {
        l[i] := l[i].(keep := true);
      }
    }
  }

  /** The loop of `Sieve`: from the first snapshot at or after `start`, keep
      it and move to the first at or after its creation plus `frequency`. */
  method SieveWalk(l: array<Snapshot>, start: int, frequency: int)
    requires frequency > 0
    modifies l
    ensures l[..] == Mark(old(l[..]), set k | k in Walk(Creations(old(l[..])), start, frequency))
  {
    ghost var cs := Creations(old(l[..]));
    ghost var from := start;
    ghost var picked: set<nat> := {};
    var s := Next(l, start);
    while s.Some?
      invariant s == NextIndex(cs, from)
      invariant picked + WalkSet(cs, from, frequency) == WalkSet(cs, start, frequency)
      invariant l[..] == Mark(old(l[..]), picked)
      decreases Count(cs, from)
    {
      var i := s.value;
      WalkStep(cs, from, frequency, i);
      MarkOne(old(l[..]), picked, i);
      l[i] := l[i].(keep := true);
      picked := picked + {i};
      from := cs[i] + frequency;
      MarkKeepsCreations(old(l[..]), picked);
      s := Next(l, l[i].creation + frequency);
    }
    WalkEnd(cs, from, frequency);
  }

  /** The snapshots a walk visits, as a set. */
  ghost function WalkSet(cs: seq<int>, from: int, frequency: int): set<nat>
    requires frequency > 0
  {
    set k | k in Walk(cs, from, frequency)
  }

  /** One step of the walk: the snapshot found and the rest of the walk. */
  lemma WalkStep(cs: seq<int>, from: int, frequency: int, i: nat)
    requires frequency > 0 && NextIndex(cs, from) == Some(i)
    ensures i < |cs| && Count(cs, cs[i] + frequency) < Count(cs, from)
    ensures WalkSet(cs, from, frequency) == {i} + WalkSet(cs, cs[i] + frequency, frequency)
  {
    CountDrops(cs, from, i, cs[i] + frequency);
    assert Walk(cs, from, frequency) == [i] + Walk(cs, cs[i] + frequency, frequency);
  }

  /** A walk that finds nothing visits nothing. */
  lemma WalkEnd(cs: seq<int>, from: int, frequency: int)
    requires frequency > 0 && NextIndex(cs, from).None?
    ensures WalkSet(cs, from, frequency) == {}
  {
  }

  lemma MarkKeepsCreations(s: seq<Snapshot>, picked: set<nat>)
    ensures Creations(Mark(s, picked)) == Creations(s)
  {
  }

  /** Marking one more snapshot is setting its flag. */
  lemma MarkOne(s: seq<Snapshot>, picked: set<nat>, i: nat)
    requires i < |s|
    ensures Mark(s, picked + {i}) == Mark(s, picked)[i := Mark(s, picked)[i].(keep := true)]
  {
  }

  /** Every snapshot the walk visits after another is created at least one
      frequency after it. */
  lemma {:induction false} WalkSpaced(cs: seq<int>, from: int, frequency: int)
    requires frequency > 0
    ensures forall k, m :: 0 <= k < m < |Walk(cs, from, frequency)| ==>
      cs[Walk(cs, from, frequency)[m]] >= cs[Walk(cs, from, frequency)[k]] + frequency
    decreases Count(cs, from)
  {
    match NextIndex(cs, from)
    case None =>
    case Some(i) =>
      CountDrops(cs, from, i, cs[i] + frequency);
      WalkSpaced(cs, cs[i] + frequency, frequency);
      var picks := Walk(cs, from, frequency);
      assert picks == [i] + Walk(cs, cs[i] + frequency, frequency);
      forall k, m | 0 <= k < m < |picks|
        ensures cs[picks[m]] >= cs[picks[k]] + frequency
      {
        if k > 0 {
          assert picks[k] == picks[1..][k - 1] && picks[m] == picks[1..][m - 1];
        }
      }
  }

  /** In a sorted list no snapshot at or after `from` is left more than one
      frequency after the last visited snapshot before it: each lies in
      the window of one frequency that starts at a visited snapshot. */
  lemma {:induction false} WalkCovers(cs: seq<int>, from: int, frequency: int, j: nat)
    requires frequency > 0 && Sorted(cs) && j < |cs| && cs[j] >= from
    ensures exists k :: (0 <= k < |Walk(cs, from, frequency)|
      && cs[Walk(cs, from, frequency)[k]] <= cs[j] < cs[Walk(cs, from, frequency)[k]] + frequency)
    decreases Count(cs, from)
  {
    var picks := Walk(cs, from, frequency);
    match NextIndex(cs, from)
    case None =>
      assert false;
    case Some(i) =>
      CountDrops(cs, from, i, cs[i] + frequency);
      assert picks == [i] + Walk(cs, cs[i] + frequency, frequency);
      assert i <= j;
      if cs[j] < cs[i] + frequency {
        assert picks[0] == i;
      } else {
        WalkCovers(cs, cs[i] + frequency, frequency, j);
        var rest := Walk(cs, cs[i] + frequency, frequency);
        var k :| 0 <= k < |rest| && cs[rest[k]] <= cs[j] < cs[rest[k]] + frequency;
        assert picks[k + 1] == rest[k];
      }
  }

  /** `Sieve` keeps only snapshots created at or after `start`; below one
      second of frequency it keeps exactly those. */
  lemma SieveAfterStart(s: seq<Snapshot>, start: int, frequency: int)
    ensures forall i :: i in SieveSet(s, start, frequency) ==> i < |s| && s[i].creation >= start
    ensures frequency < Second ==>
      forall i :: 0 <= i < |s| ==> (i in SieveSet(s, start, frequency) <==> s[i].creation >= start)
  {
    if frequency >= Second {
      var cs := Creations(s);
      forall i | i in SieveSet(s, start, frequency)
        ensures i < |s| && s[i].creation >= start
      {
        assert cs[i] == s[i].creation;
      }
    }
  }

  /** With a frequency of a second or more, in a sorted list, each snapshot
      `Sieve` keeps is created at least one frequency after every kept
      snapshot before it. */
  lemma SieveSpacing(s: seq<Snapshot>, start: int, frequency: int)
    requires Sorted(Creations(s)) && frequency >= Second
    ensures forall i, j :: i in SieveSet(s, start, frequency) && j in SieveSet(s, start, frequency) && i < j ==>
      s[j].creation >= s[i].creation + frequency
  {
    var cs := Creations(s);
    var picks := Walk(cs, start, frequency);
    WalkSpaced(cs, start, frequency);
    forall i, j | i in SieveSet(s, start, frequency) && j in SieveSet(s, start, frequency) && i < j
      ensures s[j].creation >= s[i].creation + frequency
    {
      var k :| 0 <= k < |picks| && picks[k] == i;
      var m :| 0 <= m < |picks| && picks[m] == j;
      assert cs[i] == s[i].creation && cs[j] == s[j].creation;
      assert cs[i] <= cs[j];
      if m < k {
        assert false;
      }
    }
  }

  /** With a frequency of a second or more, in a sorted list, every snapshot
      at or after `start` is created less than one frequency after some
      snapshot `Sieve` keeps, no earlier than that one. */
  lemma SieveCovers(s: seq<Snapshot>, start: int, frequency: int)
    requires Sorted(Creations(s)) && frequency >= Second
    ensures forall j :: 0 <= j < |s| && s[j].creation >= start ==>
      exists i :: i in SieveSet(s, start, frequency) && s[i].creation <= s[j].creation < s[i].creation + frequency
  {
    var cs := Creations(s);
    var picks := Walk(cs, start, frequency);
    forall j | 0 <= j < |s| && s[j].creation >= start
      ensures exists i :: i in SieveSet(s, start, frequency) && s[i].creation <= s[j].creation < s[i].creation + frequency
    {
      assert cs[j] == s[j].creation;
      WalkCovers(cs, start, frequency, j);
      var k :| 0 <= k < |picks| && cs[picks[k]] <= cs[j] < cs[picks[k]] + frequency;
      assert picks[k] in SieveSet(s, start, frequency);
      assert cs[picks[k]] == s[picks[k]].creation;
    }
  }

  /** Sieving twice with the same start and frequency marks what sieving
      once does: marks change no creation time, so the second walk visits
      the same snapshots. */
  lemma SieveIdempotent(s: seq<Snapshot>, start: int, frequency: int)
    ensures SieveSet(Mark(s, SieveSet(s, start, frequency)), start, frequency) == SieveSet(s, start, frequency)
    ensures Mark(Mark(s, SieveSet(s, start, frequency)), SieveSet(s, start, frequency))
      == Mark(s, SieveSet(s, start, frequency))
  {
    MarkMeaning(s, SieveSet(s, start, frequency));
  }
}
