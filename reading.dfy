/** What a whole run of the plan reader guarantees, over every input. */
module Reading {
  import opened Wrappers
  import opened Strings
  import opened ConfTypes
  import opened Scanner
  import opened Machine

  predicate PlansValid(plans: seq<Plan>)
  {
    forall i :: 0 <= i < |plans| ==> ValidPlan(plans[i])
  }

  /** What holds of every state the reader reaches: the stored plans are
      valid; inside a plan, `Latest` is at least 1 and the periods are well
      ordered; no error is recorded before the reader stops; and the
      "no keep periods" error is never recorded. */
  predicate Good(m: Machine)
  {
    PlansValid(m.plans)
    && (m.tag != RootLine && m.tag != Halt ==>
          m.plan.latest >= 1 && forall i :: 0 <= i < |m.plan.periods| ==> ValidPeriod(m.plan.periods[i]))
    && (m.tag != Halt ==> m.err == None)
    && m.err != Some(NoKeeps)
  }

  lemma StartGood(plans: seq<Plan>, lines: seq<string>)
    requires PlansValid(plans)
    ensures Good(Start(plans, lines))
  {
  }

  /** An error a scan can record: one of an `include`. */
  predicate IncludeError(e: Error)
  {
    e.MatchesNothing? || e.OpenFailed? || e.ReadFailed?
  }

  lemma ScanErrors(fs: FileSystem, v: Variant, depth: nat, m: Machine)
    requires Ready(fs, v, depth, m) && m.err == None
    ensures var s := Scan(fs, v, depth, m.cur, m.prev, m.err);
      (s.found ==> s.err == None) && (s.err == None || IncludeError(s.err.value))
  {
    ScanOutcome(fs, v, depth, m.cur, m.prev, m.err);
  }

  lemma RootLineGood(fs: FileSystem, v: Variant, depth: nat, m: Machine)
    requires Ready(fs, v, depth, m) && m.tag == RootLine && Good(m)
    ensures Good(RootLineStep(fs, v, depth, m))
  {
    ScanErrors(fs, v, depth, m);
  }

  lemma PlanLineGood(fs: FileSystem, v: Variant, depth: nat, m: Machine)
    requires Ready(fs, v, depth, m) && m.tag == PlanLine && Good(m)
    ensures Good(PlanLineStep(fs, v, depth, m))
  {
    ScanErrors(fs, v, depth, m);
    var s := Scan(fs, v, depth, m.cur, m.prev, m.err);
    DispatchGood(v, AfterScan(m, s), s.found);
  }

  /** Routing a scanned line keeps `Good` when the scan recorded no error
      unless it found nothing, and then only an `include` error. */
  lemma DispatchGood(v: Variant, n: Machine, found: bool)
    requires n.tag == PlanLine && PlansValid(n.plans) && n.plan.latest >= 1
    requires forall i :: 0 <= i < |n.plan.periods| ==> ValidPeriod(n.plan.periods[i])
    requires (found ==> n.err == None) && (n.err == None || IncludeError(n.err.value))
    ensures Good(Dispatch(v, n, found))
  {
  }

  lemma KeepGood(v: Variant, m: Machine)
    requires m.tag == Keep && Good(m)
    ensures Good(KeepStep(v, m))
  {
    var r := KeepStep(v, m);
    if r.tag == PlanLine {
      var k := |m.plan.periods|;
      assert forall i :: 0 <= i < k ==> r.plan.periods[i] == m.plan.periods[i];
    }
  }

  lemma EndGood(v: Variant, m: Machine)
    requires m.tag == End && Good(m)
    ensures Good(EndStep(v, m)) && m.plans <= EndStep(v, m).plans
  {
    var r := EndStep(v, m);
    if r.tag == RootLine {
      assert forall i :: 0 <= i < |m.plans| ==> r.plans[i] == m.plans[i];
    }
  }

  /** One step keeps `Good` and only ever adds plans at the end. */
  lemma StepGood(fs: FileSystem, v: Variant, depth: nat, m: Machine)
    requires Ready(fs, v, depth, m) && m.tag != Halt && Good(m)
    ensures Good(Step(fs, v, depth, m))
    ensures m.plans <= Step(fs, v, depth, m).plans
  {
    match m.tag
    case RootLine => RootLineGood(fs, v, depth, m);
    case PlanLine => PlanLineGood(fs, v, depth, m);
    case Keep => KeepGood(v, m);
    case KeepLatest =>
    case PathLine =>
    case End => EndGood(v, m);
  }

  /** A run keeps `Good` and only ever adds plans at the end. */
  lemma {:induction false} RunGood(fs: FileSystem, v: Variant, depth: nat, m: Machine)
    requires Ready(fs, v, depth, m) && Good(m)
    ensures Good(Run(fs, v, depth, m))
    ensures m.plans <= Run(fs, v, depth, m).plans
    decreases Measure(fs, v, depth, m)
  {
    if m.tag != Halt {
      var n := Step(fs, v, depth, m);
      StepGood(fs, v, depth, m);
      RunGood(fs, v, depth, n);
    }
  }

  /** Reading stores only valid plans (at least one path, `Latest` at least
      1, every frequency at most its age), keeps the plans it had, and never
      reports "no keep periods defined": a plan starts with `Latest` 1 and
      `keep latest` refuses anything below 1, so that check of `end` never
      fires. */
  lemma ReadStoresValidPlans(fs: FileSystem, v: Variant, depth: nat, plans: seq<Plan>, lines: seq<string>)
    requires Expandable(fs, v, lines, depth) && PlansValid(plans)
    ensures PlansValid(Run(fs, v, depth, Start(plans, lines)).plans)
    ensures plans <= Run(fs, v, depth, Start(plans, lines)).plans
    ensures Run(fs, v, depth, Start(plans, lines)).err != Some(NoKeeps)
  {
    StartGood(plans, lines);
    RunGood(fs, v, depth, Start(plans, lines));
  }

  /** The line is not an `include` directive in either reader. */
  predicate NotInclude(line: string)
  {
    Tokens(line) == [] || Tokens(line)[0] != IncludeKeyword
  }

  predicate IncludeFree(lines: seq<string>)
  {
    forall i :: 0 <= i < |lines| ==> NotInclude(lines[i])
  }

  lemma {:induction false} IncludeFreeExpandable(fs: FileSystem, v: Variant, lines: seq<string>, depth: nat)
    requires IncludeFree(lines)
    ensures Expandable(fs, v, lines, depth)
    decreases |lines|
  {
    if lines != [] {
      assert NotInclude(lines[0]);
      IncludeFreeExpandable(fs, v, lines[1..], depth);
    }
  }

  /** Without `include` lines both readers scan alike, never suspend a source
      and never record an error. */
  lemma {:induction false} ScanIncludeFree(fs: FileSystem, depth: nat, cur: seq<string>, err: Option<Error>)
    requires IncludeFree(cur)
    ensures AllExpandable(fs, Current, depth, cur, []) && AllExpandable(fs, Legacy, depth, cur, [])
    ensures Scan(fs, Current, depth, cur, [], err) == Scan(fs, Legacy, depth, cur, [], err)
    ensures var r := Scan(fs, Current, depth, cur, [], err);
      r.prev == [] && r.err == err && IncludeFree(r.cur) && |r.cur| <= |cur|
      && (r.found ==> |r.cur| < |cur|)
      && (!r.found ==> r.cur == [] && r.fields == [])
    decreases |cur|
  {
    IncludeFreeExpandable(fs, Current, cur, depth);
    IncludeFreeExpandable(fs, Legacy, cur, depth);
    if cur != [] {
      assert NotInclude(cur[0]);
      assert IncludeFree(cur[1..]) by {
        assert forall i :: 0 <= i < |cur[1..]| ==> cur[1..][i] == cur[i + 1];
      }
      if Trim(cur[0]) == [] {
        ScanBlank(fs, Current, depth, cur, [], err);
        ScanBlank(fs, Legacy, depth, cur, [], err);
        ScanIncludeFree(fs, depth, cur[1..], err);
      } else {
        ScanTokens(fs, Current, depth, cur, [], err);
        ScanTokens(fs, Legacy, depth, cur, [], err);
      }
    }
  }

  /** The state of a reader of include-free text. */
  predicate Plain(m: Machine)
  {
    m.prev == [] && IncludeFree(m.cur) && (m.tag != Halt ==> m.err == None)
  }

  lemma PlainReady(fs: FileSystem, depth: nat, m: Machine)
    requires Plain(m)
    ensures Ready(fs, Current, depth, m) && Ready(fs, Legacy, depth, m)
  {
    IncludeFreeExpandable(fs, Current, m.cur, depth);
    IncludeFreeExpandable(fs, Legacy, m.cur, depth);
  }

  function PlainMeasure(m: Machine): nat
  {
    2 * |m.cur| + Rank(m.tag)
  }

  lemma StepPlain(fs: FileSystem, depth: nat, m: Machine)
    requires Plain(m) && m.tag != Halt
    ensures Ready(fs, Current, depth, m) && Ready(fs, Legacy, depth, m)
    ensures Step(fs, Current, depth, m) == Step(fs, Legacy, depth, m)
    ensures var n := Step(fs, Current, depth, m);
      Plain(n) && PlainMeasure(n) < PlainMeasure(m)
  {
    PlainReady(fs, depth, m);
    match m.tag
    case RootLine =>
      ScanIncludeFree(fs, depth, m.cur, m.err);
      RootLinePlain(fs, depth, m);
      assert Step(fs, Current, depth, m) == RootLineStep(fs, Current, depth, m);
    case PlanLine =>
      ScanIncludeFree(fs, depth, m.cur, m.err);
      PlanLinePlain(fs, depth, m);
      assert Step(fs, Current, depth, m) == PlanLineStep(fs, Current, depth, m);
    case Keep => HandlerPlain(m);
    case KeepLatest => HandlerPlain(m);
    case PathLine => HandlerPlain(m);
    case End => HandlerPlain(m);
  }

  /** The handlers that do not scan record errors alike in both readers
      while no error is recorded. */
  lemma HandlerPlain(m: Machine)
    requires Plain(m) && m.tag != Halt && m.tag != RootLine && m.tag != PlanLine
    ensures KeepStep(Current, m) == KeepStep(Legacy, m) && Plain(KeepStep(Current, m))
    ensures PlainMeasure(KeepStep(Current, m)) < PlainMeasure(m)
    ensures KeepLatestStep(Current, m) == KeepLatestStep(Legacy, m) && Plain(KeepLatestStep(Current, m))
    ensures PlainMeasure(KeepLatestStep(Current, m)) < PlainMeasure(m)
    ensures PathStep(Current, m) == PathStep(Legacy, m) && Plain(PathStep(Current, m))
    ensures PlainMeasure(PathStep(Current, m)) < PlainMeasure(m)
    ensures EndStep(Current, m) == EndStep(Legacy, m) && Plain(EndStep(Current, m))
    ensures PlainMeasure(EndStep(Current, m)) < PlainMeasure(m)
  {
  }

  lemma RootLinePlain(fs: FileSystem, depth: nat, m: Machine)
    requires Plain(m) && m.tag == RootLine
    requires AllExpandable(fs, Current, depth, m.cur, []) && AllExpandable(fs, Legacy, depth, m.cur, [])
    requires Scan(fs, Current, depth, m.cur, [], m.err) == Scan(fs, Legacy, depth, m.cur, [], m.err)
    requires var r := Scan(fs, Current, depth, m.cur, [], m.err);
      r.prev == [] && r.err == m.err && IncludeFree(r.cur) && (r.found ==> |r.cur| < |m.cur|)
      && (!r.found ==> r.cur == [])
    ensures RootLineStep(fs, Current, depth, m) == RootLineStep(fs, Legacy, depth, m)
    ensures var n := RootLineStep(fs, Current, depth, m); Plain(n) && PlainMeasure(n) < PlainMeasure(m)
  {
    var s := Scan(fs, Current, depth, m.cur, m.prev, m.err);
    var n := AfterScan(m, s);
    if !s.found {
      assert RootLineStep(fs, Current, depth, m) == Halted(n, n.err);
      assert RootLineStep(fs, Legacy, depth, m) == Halted(n, n.err);
    } else if IsPlanStart(s.fields) {
      assert RootLineStep(fs, Current, depth, m) == n.(tag := PlanLine, plan := NewPlan(s.fields[1]));
    } else {
      assert RootLineStep(fs, Current, depth, m) == Halted(n, Some(UnparseableTokens(s.fields)));
      assert RootLineStep(fs, Legacy, depth, m) == Halted(n, Some(UnparseableTokens(s.fields)));
    }
  }

  lemma PlanLinePlain(fs: FileSystem, depth: nat, m: Machine)
    requires Plain(m) && m.tag == PlanLine
    requires AllExpandable(fs, Current, depth, m.cur, []) && AllExpandable(fs, Legacy, depth, m.cur, [])
    requires Scan(fs, Current, depth, m.cur, [], m.err) == Scan(fs, Legacy, depth, m.cur, [], m.err)
    requires var r := Scan(fs, Current, depth, m.cur, [], m.err);
      r.prev == [] && r.err == m.err && IncludeFree(r.cur) && (r.found ==> |r.cur| < |m.cur|)
      && (!r.found ==> r.cur == [])
    ensures PlanLineStep(fs, Current, depth, m) == PlanLineStep(fs, Legacy, depth, m)
    ensures var n := PlanLineStep(fs, Current, depth, m); Plain(n) && PlainMeasure(n) < PlainMeasure(m)
  {
    var s := Scan(fs, Current, depth, m.cur, m.prev, m.err);
    var n := AfterScan(m, s);
    assert PlanLineStep(fs, Current, depth, m) == Dispatch(Current, n, s.found);
    assert PlanLineStep(fs, Legacy, depth, m) == Dispatch(Legacy, n, s.found);
    DispatchAgree(n, s.found);
  }

  /** Without an earlier error both readers dispatch a plan line alike, and
      only to a handler or to a stop. */
  lemma DispatchAgree(n: Machine, found: bool)
    requires n.err == None
    ensures Dispatch(Current, n, found) == Dispatch(Legacy, n, found)
    ensures Dispatch(Current, n, found).tag in {Keep, KeepLatest, PathLine, End, Halt}
  {
  }

  /** Without `include` lines, the split-file reader and the single-file
      reader read the same plans and report the same error: the first-error
      rule only matters once an `include` has failed, because no error is
      recorded while the reader is running. */
  lemma {:induction false} VariantsAgree(fs: FileSystem, depth: nat, m: Machine)
    requires Plain(m)
    ensures Ready(fs, Current, depth, m) && Ready(fs, Legacy, depth, m)
    ensures Run(fs, Current, depth, m) == Run(fs, Legacy, depth, m)
    decreases PlainMeasure(m)
  {
    PlainReady(fs, depth, m);
    if m.tag != Halt {
      StepPlain(fs, depth, m);
      VariantsAgree(fs, depth, Step(fs, Current, depth, m));
    }
  }

  /** Both readers read include-free text alike. */
  lemma ReadersAgree(fs: FileSystem, depth: nat, plans: seq<Plan>, lines: seq<string>)
    requires IncludeFree(lines)
    ensures Ready(fs, Current, depth, Start(plans, lines)) && Ready(fs, Legacy, depth, Start(plans, lines))
    ensures Run(fs, Current, depth, Start(plans, lines)) == Run(fs, Legacy, depth, Start(plans, lines))
  {
    VariantsAgree(fs, depth, Start(plans, lines));
  }

  predicate AllBlank(lines: seq<string>)
  {
    forall i :: 0 <= i < |lines| ==> Trim(lines[i]) == []
  }

  /** Text made only of blank lines and comments defines no plans and is
      not an error. */
  lemma BlankInput(fs: FileSystem, v: Variant, depth: nat, plans: seq<Plan>, lines: seq<string>)
    requires AllBlank(lines)
    ensures Ready(fs, v, depth, Start(plans, lines))
    ensures Run(fs, v, depth, Start(plans, lines)).plans == plans
    ensures Run(fs, v, depth, Start(plans, lines)).err == None
  {
    assert IncludeFree(lines) by {
      forall i | 0 <= i < |lines|
        ensures NotInclude(lines[i])
      {
        assert Trim(lines[i]) == [];
      }
    }
    IncludeFreeExpandable(fs, v, lines, depth);
    BlankScan(fs, v, depth, lines);
    var m := Start(plans, lines);
    var n := Step(fs, v, depth, m);
    assert n.tag == Halt;
  }

  lemma {:induction false} BlankScan(fs: FileSystem, v: Variant, depth: nat, cur: seq<string>)
    requires AllBlank(cur) && Expandable(fs, v, cur, depth)
    ensures Scan(fs, v, depth, cur, [], None) == Scanned(false, [], [], [], None)
    decreases |cur|
  {
    if cur != [] {
      ScanBlank(fs, v, depth, cur, [], None);
      assert AllBlank(cur[1..]) by {
        assert forall i :: 0 <= i < |cur[1..]| ==> cur[1..][i] == cur[i + 1];
      }
      BlankScan(fs, v, depth, cur[1..]);
    }
  }

  /** Inside a plan, a failed `include` is the error the split-file reader
      reports, not the "unterminated plan" that follows it. */
  lemma IncludeFailureWins(fs: FileSystem, depth: nat, m: Machine)
    requires Ready(fs, Current, depth, m) && m.tag == PlanLine && m.err == None
    requires Scan(fs, Current, depth, m.cur, m.prev, None).fields != []
    requires !Scan(fs, Current, depth, m.cur, m.prev, None).found
    ensures var f := Scan(fs, Current, depth, m.cur, m.prev, None).fields;
      |f| >= 2 && IncludeText(fs, f[1]).Failure?
      && Step(fs, Current, depth, m).err == Some(IncludeText(fs, f[1]).error)
  {
    ScanOutcome(fs, Current, depth, m.cur, m.prev, None);
  }
}
