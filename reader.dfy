/** The plan reader as Go writes it: `Config` and `Plan` objects whose
    methods are the actions, run by `Config.Read` until an action returns
    nil (`conf/Config.go`, `conf/Plan.go`, and `conf/Conf.go` for the
    single-file reader). Each action is proved to take the step of the
    `Machine` model that its tag names. */
module Reader {
  import opened Wrappers
  import opened Strconv
  import CT = ConfTypes
  import opened Duration
  import opened Strings
  import opened Scanner
  import M = Machine

  /** The action `Read` runs next; `Nil` is Go's nil action. */
  datatype Action =
    | Nil
    | RootLine(config: Config)
    | PlanLine(plan: Plan)
    | Keep(plan: Plan)
    | KeepLatest(plan: Plan)
    | Path(plan: Plan)
    | End(plan: Plan)

  function TagOf(a: Action): M.Tag
  {
    match a
    case Nil => M.Halt
    case RootLine(_) => M.RootLine
    case PlanLine(_) => M.PlanLine
    case Keep(_) => M.Keep
    case KeepLatest(_) => M.KeepLatest
    case Path(_) => M.PathLine
    case End(_) => M.End
  }

  /** The plan object an action works on, if any. */
  function Objects(a: Action): set<object>
  {
    if a.Nil? || a.RootLine? then {} else {a.plan}
  }

  /** The machine state of a reader whose next action is `a`. */
  function View(a: Action, s: State, c: Config): M.Machine
    reads s, c, Objects(a)
  {
    var plan := if a.Nil? || a.RootLine? then M.Blank else a.plan.Value();
    M.Machine(TagOf(a), plan, c.plans, s.scanner, s.previous, s.fields, s.err)
  }

  class Config {
    var plans: seq<CT.Plan>

    constructor ()
      ensures plans == []
    {
      plans := [];
    }

    /** `Read`: runs the actions from `rootLine` until one returns nil and
        returns the error recorded, which is exactly what the machine
        computes; the text is the reader's input, already split into lines. */
    method Read(fs: FileSystem, variant: CT.Variant, ghost depth: nat, text: string) returns (err: Option<CT.Error>)
      requires Expandable(fs, variant, SplitLines(text), depth)
      modifies this
      ensures var r := M.Run(fs, variant, depth, M.Start(old(plans), SplitLines(text)));
        plans == r.plans && err == r.err
    {
      var s := new State(variant, fs, depth, SplitLines(text));
      var a: Action := Action.RootLine(this);
      ghost var goal := M.Run(fs, variant, depth, M.Start(old(plans), SplitLines(text)));
      while !a.Nil?
        invariant s.Valid() && s.variant == variant && s.fs == fs && s.depth == depth
        invariant Owned(a)
        invariant !a.Nil? && !a.RootLine? ==> fresh(a.plan)
        invariant M.Run(fs, variant, depth, View(a, s, this)) == goal
        decreases M.Measure(fs, variant, depth, View(a, s, this))
      {
        a := Act(a, s);
      }
      err := s.err;
    }

    /** The action belongs to this configuration. */
    ghost predicate Owned(a: Action)
      reads this, Objects(a)
    {
      (a.RootLine? ==> a.config == this)
      && (!a.Nil? && !a.RootLine? ==> a.plan.conf == this)
    }

    /** One turn of `Read`'s loop: runs the action `a`. */
    method Act(a: Action, s: State) returns (next: Action)
      requires s.Valid() && !a.Nil? && Owned(a)
      modifies this, s, Objects(a)
      ensures s.Valid() && Owned(next)
      ensures !next.Nil? && !next.RootLine? ==> fresh(next.plan) || (!a.RootLine? && next.plan == a.plan)
      ensures View(next, s, this) == M.Step(s.fs, s.variant, s.depth, old(View(a, s, this)))
      ensures M.Run(s.fs, s.variant, s.depth, View(next, s, this)) == M.Run(s.fs, s.variant, s.depth, old(View(a, s, this)))
    {
      M.StepCases(s.fs, s.variant, s.depth, View(a, s, this));
      match a {
      case RootLine(c) =>
        next := RootLine(s);
      case PlanLine(p) =>
        next := p.PlanLine(s);
      case Keep(p) =>
        next := p.Keep(s);
      case KeepLatest(p) =>
        next := p.KeepLatest(s);
      case Path(p) =>
        next := p.Path(s);
      case End(p) =>
        next := p.End(s);
      }
    }

    /** `rootLine`. */
    method RootLine(s: State) returns (next: Action)
      requires s.Valid()
      modifies s
      ensures s.Valid()
      ensures next.Nil? || (next.PlanLine? && fresh(next.plan) && next.plan.conf == this)
      ensures View(next, s, this) == M.RootLineStep(s.fs, s.variant, s.depth, old(View(Action.RootLine(this), s, this)))
    {
      var found := s.ScanLine();
      if !found {
        return Action.Nil;
      }
      if M.IsPlanStart(s.fields) {
        var plan := new Plan(s.fields[1], this);
        return Action.PlanLine(plan);
      }
      s.UnparsableToken();
      return Action.Nil;
    }
  }

  class Plan {
    var name: string
    var paths: seq<string>
    var latest: int
    var periods: seq<CT.Period>
    var conf: Config?

    /** The plan as the configuration stores it. */
    function Value(): CT.Plan
      reads this
    {
      CT.Plan(name, paths, latest, periods)
    }

    /** The plan `rootLine` opens for `plan NAME {`. */
    constructor (name: string, conf: Config)
      ensures Value() == M.NewPlan(name) && this.conf == conf
    {
      this.name := name;
      paths := [];
      latest := 1;
      periods := [];
      this.conf := conf;
    }

    /** `planLine`. */
    method PlanLine(s: State) returns (next: Action)
      requires s.Valid() && conf != null
      modifies s
      ensures s.Valid()
      ensures next.Nil? || (!next.RootLine? && next.plan == this)
      ensures View(next, s, conf) == M.PlanLineStep(s.fs, s.variant, s.depth, old(View(Action.PlanLine(this), s, conf)))
    {
      ghost var m := View(Action.PlanLine(this), s, conf);
      var found := s.ScanLine();
      next := Route(s, found);
    }

    /** What `planLine` does once it has scanned. */
    method Route(s: State, found: bool) returns (next: Action)
      requires conf != null
      modifies s
      ensures s.scanner == old(s.scanner) && s.previous == old(s.previous)
      ensures next.Nil? || (!next.RootLine? && next.plan == this)
      ensures View(next, s, conf) == M.Dispatch(s.variant, old(View(Action.PlanLine(this), s, conf)), found)
    {
      if !found {
        s.Fail(CT.UnterminatedPlan);
        return Action.Nil;
      }
      if M.IsKeepFor(s.fields) {
        return Action.Keep(this);
      }
      if M.IsKeepLatest(s.fields) {
        return Action.KeepLatest(this);
      }
      if M.IsPath(s.fields) {
        return Action.Path(this);
      }
      if M.IsBlockEnd(s.fields) {
        return Action.End(this);
      }
      s.UnparsableToken();
      return Action.Nil;
    }

    /** `keep`: the two durations are assigned to the reader's error in
        turn, so an earlier error is replaced. */
    method Keep(s: State) returns (next: Action)
      requires conf != null
      modifies this, s
      ensures conf == old(conf)
      ensures next.Nil? || next == Action.PlanLine(this)
      ensures next.Nil? ==> Value() == old(Value())
      ensures View(next, s, conf) == M.KeepStep(s.variant, old(View(Action.Keep(this), s, conf)))
    {
      if |s.fields| < 4 {
        s.Fail(CT.SyntaxError);
        return Action.Nil;
      }
      var frequency := ParseDuration(s.fields[1]);
      s.err := frequency.err;
      if s.err.Some? {
        return Action.Nil;
      }
      var age := ParseDuration(s.fields[3]);
      s.err := age.err;
      if s.err.Some? {
        return Action.Nil;
      }
      if frequency.duration > age.duration {
        s.Fail(CT.FrequencyTooBig);
        return Action.Nil;
      }
      periods := periods + [CT.Period(frequency.duration, age.duration)];
      return Action.PlanLine(this);
    }

    /** `keepLatest`: the number is assigned to the reader's error, so an
        earlier error is replaced. */
    method KeepLatest(s: State) returns (next: Action)
      requires conf != null
      modifies this, s
      ensures conf == old(conf)
      ensures next.Nil? || next == Action.PlanLine(this)
      ensures next.Nil? ==> Value() == old(Value())
      ensures View(next, s, conf) == M.KeepLatestStep(s.variant, old(View(Action.KeepLatest(this), s, conf)))
    {
      if |s.fields| != 3 {
        s.Fail(CT.SyntaxError);
        return Action.Nil;
      }
      match ParseInt(s.fields[2])
      case Failure(e) =>
        s.err := Some(CT.NumberError(e));
        return Action.Nil;
      case Success(n) =>
        s.err := None;
        if n < 1 {
          s.Fail(CT.Latest1);
          return Action.Nil;
        }
        latest := n;
        return Action.PlanLine(this);
    }

    /** `path`. */
    method Path(s: State) returns (next: Action)
      requires conf != null
      modifies this, s
      ensures conf == old(conf)
      ensures next.Nil? || next == Action.PlanLine(this)
      ensures next.Nil? ==> Value() == old(Value())
      ensures View(next, s, conf) == M.PathStep(s.variant, old(View(Action.Path(this), s, conf)))
    {
      if |s.fields| != 2 {
        s.Fail(CT.SyntaxError);
        return Action.Nil;
      }
      paths := paths + [s.fields[1]];
      return Action.PlanLine(this);
    }

    /** `end`: on success the plan leaves its configuration (`conf` becomes
        nil) and a copy of it is appended to the configuration's plans. */
    method End(s: State) returns (next: Action)
      requires conf != null
      modifies this, conf, s
      ensures next.Nil? || (next == Action.RootLine(old(conf)) && conf == null)
      ensures next.Nil? ==> Value() == old(Value()) && conf == old(conf)
      ensures View(next, s, old(conf)) == M.EndStep(s.variant, old(View(Action.End(this), s, conf)))
    {
      if |paths| == 0 {
        s.Fail(CT.NoPaths);
        return Action.Nil;
      }
      if |periods| == 0 && latest == 0 {
        s.Fail(CT.NoKeeps);
        return Action.Nil;
      }
      var c := conf;
      conf := null;
      c.plans := c.plans + [Value()];
      return Action.RootLine(c);
    }
  }
}
