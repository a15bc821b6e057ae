/** The plan reader as a state machine (`conf/Config.go`, `conf/Plan.go` and
    their older single-file form `conf/Conf.go`). Go writes each state as an
    action function that returns the next action; here the action is a tag
    and one step runs the action of the tag. */
module Machine {
  import opened Wrappers
  import opened Strconv
  import opened ConfTypes
  import opened Duration
  import opened Scanner

  /** The next action: `rootLine`, `planLine`, `keep`, `keepLatest`, `path`,
      `end`, or Go's nil action. */
  datatype Tag = RootLine | PlanLine | Keep | KeepLatest | PathLine | End | Halt

  /** Everything the actions read and write: the next action, the plan being
      built, the plans of the configuration, and the reader's state. */
  datatype Machine = Machine(
    tag: Tag, plan: Plan, plans: seq<Plan>,
    cur: seq<string>, prev: seq<seq<string>>, fields: seq<string>, err: Option<Error>)

  /** The plan outside a plan block. */
  const Blank := Plan([], [], 0, [])

  /** A new plan: `plan NAME {` gives it its name and `Latest: 1`. */
  function NewPlan(name: string): Plan
  {
    Plan(name, [], 1, [])
  }

  function Halted(m: Machine, err: Option<Error>): Machine
  {
    m.(tag := Halt, plan := Blank, err := err)
  }

  predicate Ready(fs: FileSystem, v: Variant, depth: nat, m: Machine)
  {
    AllExpandable(fs, v, depth, m.cur, m.prev)
  }

  function Rank(t: Tag): nat
  {
    match t
    case Halt => 0
    case RootLine => 1
    case PlanLine => 1
    case _ => 2
  }

  /** Every step lowers this: the scanning actions read a line, the others
      hand over to a scanning action or stop. */
  function Measure(fs: FileSystem, v: Variant, depth: nat, m: Machine): nat
    requires Ready(fs, v, depth, m)
  {
    2 * Weight(fs, v, depth, m.cur, m.prev) + Rank(m.tag)
  }

  function AfterScan(m: Machine, s: Scanned): Machine
  {
    m.(cur := s.cur, prev := s.prev, fields := s.fields, err := s.err)
  }

  /** `plan NAME {` exactly. */
  predicate IsPlanStart(f: seq<string>)
  {
    |f| == 3 && f[0] == PlanKeyword && f[2] == BlockStart
  }

  /** The `scanLine` an action starts with. */
  function ScanOf(fs: FileSystem, v: Variant, depth: nat, m: Machine): Scanned
    requires Ready(fs, v, depth, m)
  {
    Scan(fs, v, depth, m.cur, m.prev, m.err)
  }

  /** `rootLine`: at the end of the input the reader stops; a line
      `plan NAME {` opens a plan with that name, `Latest` 1 and no paths or
      periods; any other line is an error. */
  function RootLineStep(fs: FileSystem, v: Variant, depth: nat, m: Machine): (r: Machine)
    requires Ready(fs, v, depth, m)
    ensures Ready(fs, v, depth, r)
    ensures Weight(fs, v, depth, r.cur, r.prev) <= Weight(fs, v, depth, m.cur, m.prev)
    ensures r.tag != Halt ==> Weight(fs, v, depth, r.cur, r.prev) < Weight(fs, v, depth, m.cur, m.prev)
    ensures r.plans == m.plans
    ensures r.tag == PlanLine || r.tag == Halt
    ensures r.cur == ScanOf(fs, v, depth, m).cur && r.prev == ScanOf(fs, v, depth, m).prev
    ensures r.fields == ScanOf(fs, v, depth, m).fields
    ensures !ScanOf(fs, v, depth, m).found ==> r.tag == Halt && r.err == ScanOf(fs, v, depth, m).err
    ensures ScanOf(fs, v, depth, m).found && IsPlanStart(r.fields) ==> r.tag == PlanLine
    ensures ScanOf(fs, v, depth, m).found && !IsPlanStart(r.fields) ==>
      r.tag == Halt && r.err == Report(v, m.err, UnparseableTokens(r.fields))
    ensures r.tag == PlanLine ==> IsPlanStart(r.fields) && r.plan == NewPlan(r.fields[1]) && r.err == m.err
  {
    var s := Scan(fs, v, depth, m.cur, m.prev, m.err);
    ScanOutcome(fs, v, depth, m.cur, m.prev, m.err);
    var n := AfterScan(m, s);
    if !s.found then Halted(n, n.err)
    else if IsPlanStart(s.fields) then n.(tag := PlanLine, plan := NewPlan(s.fields[1]))
    else Halted(n, Report(v, n.err, UnparseableTokens(s.fields)))
  }

  predicate IsKeepFor(f: seq<string>)
  {
    |f| == 4 && f[0] == KeepKeyword && f[2] == ForKeyword
  }

  predicate IsKeepLatest(f: seq<string>)
  {
    |f| == 3 && f[0] == KeepKeyword && f[1] == LatestKeyword
  }

  predicate IsPath(f: seq<string>)
  {
    |f| == 2 && f[0] == PathKeyword
  }

  predicate IsBlockEnd(f: seq<string>)
  {
    |f| == 1 && f[0] == BlockEnd
  }

  /** `planLine`: inside a plan the end of the input is an error, the four
      line shapes go to their handlers, and anything else is an error. */
  function PlanLineStep(fs: FileSystem, v: Variant, depth: nat, m: Machine): (r: Machine)
    requires Ready(fs, v, depth, m)
    ensures Ready(fs, v, depth, r)
    ensures Weight(fs, v, depth, r.cur, r.prev) <= Weight(fs, v, depth, m.cur, m.prev)
    ensures r.tag != Halt ==> Weight(fs, v, depth, r.cur, r.prev) < Weight(fs, v, depth, m.cur, m.prev)
    ensures r.plans == m.plans
    ensures r.cur == ScanOf(fs, v, depth, m).cur && r.prev == ScanOf(fs, v, depth, m).prev
    ensures r.fields == ScanOf(fs, v, depth, m).fields
    ensures r.tag != Halt ==> r.plan == m.plan && r.err == m.err
    ensures !ScanOf(fs, v, depth, m).found ==>
      r.tag == Halt && r.err == Report(v, ScanOf(fs, v, depth, m).err, UnterminatedPlan)
    ensures ScanOf(fs, v, depth, m).found && IsKeepFor(r.fields) ==> r.tag == Keep
    ensures ScanOf(fs, v, depth, m).found && IsKeepLatest(r.fields) ==> r.tag == KeepLatest
    ensures ScanOf(fs, v, depth, m).found && IsPath(r.fields) ==> r.tag == PathLine
    ensures ScanOf(fs, v, depth, m).found && IsBlockEnd(r.fields) ==> r.tag == End
    ensures (ScanOf(fs, v, depth, m).found
             && !IsKeepFor(r.fields) && !IsKeepLatest(r.fields) && !IsPath(r.fields) && !IsBlockEnd(r.fields)) ==>
      r.tag == Halt && r.err == Report(v, m.err, UnparseableTokens(r.fields))
    ensures r.tag != RootLine
    ensures r.tag == Halt && r.fields == [] ==> r.err == Report(v, m.err, UnterminatedPlan)
  {
    var s := Scan(fs, v, depth, m.cur, m.prev, m.err);
    ScanOutcome(fs, v, depth, m.cur, m.prev, m.err);
    Dispatch(v, AfterScan(m, s), s.found)
  }

  /** What `planLine` does once it has scanned: the end of the input is an
      error, and the tokens go by their shape. */
  function Dispatch(v: Variant, n: Machine, found: bool): (r: Machine)
    ensures r.cur == n.cur && r.prev == n.prev && r.fields == n.fields && r.plans == n.plans
    ensures r.tag != Halt ==> r.plan == n.plan && r.err == n.err && Rank(r.tag) == 2
  {
    if !found then Halted(n, Report(v, n.err, UnterminatedPlan))
    else if IsKeepFor(n.fields) then n.(tag := Keep)
    else if IsKeepLatest(n.fields) then n.(tag := KeepLatest)
    else if IsPath(n.fields) then n.(tag := PathLine)
    else if IsBlockEnd(n.fields) then n.(tag := End)
    else Halted(n, Report(v, n.err, UnparseableTokens(n.fields)))
  }

  /** `keep F for A`: both durations are read, each error is passed on as it
      is, a frequency above the age is an error, and otherwise exactly the
      period (F, A) is added to the plan. */
  function KeepStep(v: Variant, m: Machine): (r: Machine)
    ensures r.plans == m.plans && r.cur == m.cur && r.prev == m.prev && r.fields == m.fields
    ensures r.tag == PlanLine || r.tag == Halt
    ensures r.tag == Halt ==> r.err.Some?
    ensures r.tag == PlanLine ==>
      |m.fields| >= 4 && r.err == None
      && r.plan == m.plan.(periods := m.plan.periods + [Period(ParseDuration(m.fields[1]).duration, ParseDuration(m.fields[3]).duration)])
      && ValidPeriod(r.plan.periods[|r.plan.periods| - 1])
    ensures r.tag == PlanLine <==>
      |m.fields| >= 4 && ParseDuration(m.fields[1]).err.None? && ParseDuration(m.fields[3]).err.None?
      && ParseDuration(m.fields[1]).duration <= ParseDuration(m.fields[3]).duration
    ensures |m.fields| < 4 ==> r.err == Report(v, m.err, SyntaxError)
    ensures |m.fields| >= 4 && ParseDuration(m.fields[1]).err.Some? ==> r.err == ParseDuration(m.fields[1]).err
    ensures |m.fields| >= 4 && ParseDuration(m.fields[1]).err.None? && ParseDuration(m.fields[3]).err.Some? ==>
      r.err == ParseDuration(m.fields[3]).err
    ensures (|m.fields| >= 4 && ParseDuration(m.fields[1]).err.None? && ParseDuration(m.fields[3]).err.None?
             && ParseDuration(m.fields[1]).duration > ParseDuration(m.fields[3]).duration) ==>
      r.err == Report(v, None, FrequencyTooBig)
  {
    if |m.fields| < 4 then Halted(m, Report(v, m.err, SyntaxError))
    else
      var frequency := ParseDuration(m.fields[1]);
      if frequency.err.Some? then Halted(m, frequency.err)
      else
        var age := ParseDuration(m.fields[3]);
        if age.err.Some? then Halted(m, age.err)
        else if frequency.duration > age.duration then Halted(m, Report(v, None, FrequencyTooBig))
        else
          var period := Period(frequency.duration, age.duration);
          m.(tag := PlanLine, err := None, plan := m.plan.(periods := m.plan.periods + [period]))
  }

  /** `keep latest N`: N must be a base-10 integer of at least 1, and then it
      replaces `Latest`. */
  function KeepLatestStep(v: Variant, m: Machine): (r: Machine)
    ensures r.plans == m.plans && r.cur == m.cur && r.prev == m.prev && r.fields == m.fields
    ensures r.tag == PlanLine || r.tag == Halt
    ensures r.tag == Halt ==> r.err.Some?
    ensures r.tag == PlanLine <==>
      |m.fields| == 3 && ParseInt(m.fields[2]).Success? && ParseInt(m.fields[2]).value >= 1
    ensures r.tag == PlanLine ==> r.err == None && r.plan == m.plan.(latest := ParseInt(m.fields[2]).value)
    ensures |m.fields| == 3 && ParseInt(m.fields[2]).Success? && ParseInt(m.fields[2]).value < 1 ==>
      r.err == Some(Latest1)
    ensures |m.fields| == 3 && ParseInt(m.fields[2]).Failure? ==>
      r.err == Some(NumberError(ParseInt(m.fields[2]).error))
  {
    if |m.fields| != 3 then Halted(m, Report(v, m.err, SyntaxError))
    else
      match ParseInt(m.fields[2])
      case Failure(e) => Halted(m, Some(NumberError(e)))
      case Success(n) =>
        if n < 1 then Halted(m, Report(v, None, Latest1))
        else m.(tag := PlanLine, err := None, plan := m.plan.(latest := n))
  }

  /** `path P`: exactly P is added to the plan's paths. */
  function PathStep(v: Variant, m: Machine): (r: Machine)
    ensures r.plans == m.plans && r.cur == m.cur && r.prev == m.prev && r.fields == m.fields
    ensures r.tag == PlanLine <==> |m.fields| == 2
    ensures r.tag == PlanLine ==> r.err == m.err && r.plan == m.plan.(paths := m.plan.paths + [m.fields[1]])
    ensures r.tag != PlanLine ==> r.tag == Halt && r.err == Report(v, m.err, SyntaxError)
  {
    if |m.fields| != 2 then Halted(m, Report(v, m.err, SyntaxError))
    else m.(tag := PlanLine, plan := m.plan.(paths := m.plan.paths + [m.fields[1]]))
  }

  /** `end`: a plan without paths is an error, then a plan without periods
      and with `Latest` 0; otherwise the plan is added to the configuration
      and the reader is back at the root. */
  function EndStep(v: Variant, m: Machine): (r: Machine)
    ensures r.cur == m.cur && r.prev == m.prev && r.fields == m.fields
    ensures r.tag == RootLine || r.tag == Halt
    ensures r.tag == RootLine <==> |m.plan.paths| >= 1 && (|m.plan.periods| >= 1 || m.plan.latest != 0)
    ensures r.tag == RootLine ==> r.plans == m.plans + [m.plan] && r.err == m.err
    ensures r.tag == Halt ==> r.plans == m.plans
    ensures |m.plan.paths| == 0 ==> r.err == Report(v, m.err, NoPaths)
    ensures |m.plan.paths| >= 1 && r.tag == Halt ==> r.err == Report(v, m.err, NoKeeps)
  {
    if |m.plan.paths| == 0 then Halted(m, Report(v, m.err, NoPaths))
    else if |m.plan.periods| == 0 && m.plan.latest == 0 then Halted(m, Report(v, m.err, NoKeeps))
    else m.(tag := RootLine, plan := Blank, plans := m.plans + [m.plan])
  }

  /** Runs the action of the tag. */
  function Step(fs: FileSystem, v: Variant, depth: nat, m: Machine): (r: Machine)
    requires Ready(fs, v, depth, m) && m.tag != Halt
    ensures Ready(fs, v, depth, r)
    ensures Measure(fs, v, depth, r) < Measure(fs, v, depth, m)
  {
    match m.tag
    case RootLine => RootLineDecreases(fs, v, depth, m); RootLineStep(fs, v, depth, m)
    case PlanLine => PlanLineDecreases(fs, v, depth, m); PlanLineStep(fs, v, depth, m)
    case Keep => var r := KeepStep(v, m); SameSources(fs, v, depth, m, r); r
    case KeepLatest => var r := KeepLatestStep(v, m); SameSources(fs, v, depth, m, r); r
    case PathLine => var r := PathStep(v, m); SameSources(fs, v, depth, m, r); r
    case End => var r := EndStep(v, m); SameSources(fs, v, depth, m, r); r
  }

  lemma RootLineDecreases(fs: FileSystem, v: Variant, depth: nat, m: Machine)
    requires Ready(fs, v, depth, m) && m.tag == RootLine
    ensures Ready(fs, v, depth, RootLineStep(fs, v, depth, m))
    ensures Measure(fs, v, depth, RootLineStep(fs, v, depth, m)) < Measure(fs, v, depth, m)
  {
  }

  lemma PlanLineDecreases(fs: FileSystem, v: Variant, depth: nat, m: Machine)
    requires Ready(fs, v, depth, m) && m.tag == PlanLine
    ensures Ready(fs, v, depth, PlanLineStep(fs, v, depth, m))
    ensures Measure(fs, v, depth, PlanLineStep(fs, v, depth, m)) < Measure(fs, v, depth, m)
  {
  }

  /** A step that reads no line hands over to an action of lower rank. */
  lemma SameSources(fs: FileSystem, v: Variant, depth: nat, m: Machine, r: Machine)
    requires Ready(fs, v, depth, m) && r.cur == m.cur && r.prev == m.prev && Rank(r.tag) < Rank(m.tag)
    ensures Ready(fs, v, depth, r) && Measure(fs, v, depth, r) < Measure(fs, v, depth, m)
  {
  }

  /** The step of each tag. */
  lemma StepCases(fs: FileSystem, v: Variant, depth: nat, m: Machine)
    requires Ready(fs, v, depth, m) && m.tag != Halt
    ensures m.tag == RootLine ==> Step(fs, v, depth, m) == RootLineStep(fs, v, depth, m)
    ensures m.tag == PlanLine ==> Step(fs, v, depth, m) == PlanLineStep(fs, v, depth, m)
    ensures m.tag == Keep ==> Step(fs, v, depth, m) == KeepStep(v, m)
    ensures m.tag == KeepLatest ==> Step(fs, v, depth, m) == KeepLatestStep(v, m)
    ensures m.tag == PathLine ==> Step(fs, v, depth, m) == PathStep(v, m)
    ensures m.tag == End ==> Step(fs, v, depth, m) == EndStep(v, m)
  {
  }

  /** `Read`'s loop: the actions run until one returns nil. */
  function Run(fs: FileSystem, v: Variant, depth: nat, m: Machine): (r: Machine)
    requires Ready(fs, v, depth, m)
    ensures r.tag == Halt
    decreases Measure(fs, v, depth, m)
  {
    if m.tag == Halt then m else Run(fs, v, depth, Step(fs, v, depth, m))
  }

  /** The machine `Read` starts: the root action over the input's lines. */
  function Start(plans: seq<Plan>, lines: seq<string>): Machine
  {
    Machine(RootLine, Blank, plans, lines, [], [], None)
  }
}
