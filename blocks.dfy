/** What the plan reader does with a well-formed plan block
    (`conf/Config.go`, `conf/Plan.go`, `conf/Conf.go`): it stores the plan
    its rules describe, after the plans before it, and reads on. */
module Blocks {
  import opened Wrappers
  import opened Strings
  import opened Strconv
  import opened ConfTypes
  import opened Duration
  import opened Scanner
  import opened Machine

  /** The tokens of a rule the reader accepts inside a block: `keep F for A`
      with two durations and F at most A, `keep latest N` with N at least 1,
      or `path P`. */
  predicate IsRule(t: seq<string>)
  {
    (IsKeepFor(t) && ParseDuration(t[1]).err.None? && ParseDuration(t[3]).err.None?
     && ParseDuration(t[1]).duration <= ParseDuration(t[3]).duration)
    || (IsKeepLatest(t) && ParseInt(t[2]).Success? && ParseInt(t[2]).value >= 1)
    || IsPath(t)
  }

  /** What a rule does to the plan, stated on its own: a period, a new
      `Latest`, or one more path. */
  function Apply(p: Plan, t: seq<string>): Plan
    requires IsRule(t)
  {
    if IsKeepFor(t) then p.(periods := p.periods + [Period(ParseDuration(t[1]).duration, ParseDuration(t[3]).duration)])
    else if IsKeepLatest(t) then p.(latest := ParseInt(t[2]).value)
    else p.(paths := p.paths + [t[1]])
  }

  /** One step of `Read`'s loop. */
  lemma RunStep(fs: FileSystem, v: Variant, depth: nat, m: Machine)
    requires Ready(fs, v, depth, m) && m.tag != Halt
    ensures Run(fs, v, depth, m) == Run(fs, v, depth, Step(fs, v, depth, m))
  {
  }

  /** The reader at the line after a block body, with the plan the body
      built. */
  function AfterBody(m: Machine, body: seq<string>, rest: seq<string>): Machine
    requires AllRules(body)
  {
    m.(cur := rest, plan := Build(m.plan, body), fields := [])
  }

  /** The lines of a block body: each one blank (or only a comment) or a
      rule. */
  predicate AllRules(body: seq<string>)
    decreases |body|
  {
    body == [] || ((Tokens(body[0]) == [] || IsRule(Tokens(body[0]))) && AllRules(body[1..]))
  }

  /** The plan the rules of `body` make of `p`, in order. */
  function Build(p: Plan, body: seq<string>): Plan
    requires AllRules(body)
    decreases |body|
  {
    if body == [] then p
    else if Tokens(body[0]) == [] then Build(p, body[1..])
    else Build(Apply(p, Tokens(body[0])), body[1..])
  }

  /** A first line that is not an `include` keeps the lines after it
      expandable. */
  lemma ExpandableHead(fs: FileSystem, v: Variant, depth: nat, lines: seq<string>)
    requires lines != [] && (Tokens(lines[0]) == [] || Tokens(lines[0])[0] != IncludeKeyword)
    requires Expandable(fs, v, lines[1..], depth)
    ensures Expandable(fs, v, lines, depth)
  {
  }

  /** A rule is not an `include`. */
  lemma RuleHead(t: seq<string>)
    requires IsRule(t)
    ensures t != [] && t[0] != IncludeKeyword
  {
  }

  lemma ConsParts(line: string, rest: seq<string>)
    ensures ([line] + rest)[0] == line && ([line] + rest)[1..] == rest
  {
  }

  lemma Assoc(open: string, body: seq<string>, rest: seq<string>)
    ensures [open] + body + rest == [open] + (body + rest)
  {
  }

  lemma Regroup(open: string, body: seq<string>, close: string, rest: seq<string>)
    ensures [open] + body + [close] + rest == [open] + body + ([close] + rest)
  {
  }

  /** A line that is not an `include` leaves the rest expandable. */
  lemma ExpandableCons(fs: FileSystem, v: Variant, depth: nat, line: string, rest: seq<string>)
    requires Tokens(line) == [] || Tokens(line)[0] != IncludeKeyword
    requires Expandable(fs, v, rest, depth)
    ensures Expandable(fs, v, [line] + rest, depth)
  {
    assert ([line] + rest)[0] == line && ([line] + rest)[1..] == rest;
  }

  /** At the root, the tokens and the plan left from before do not matter. */
  lemma RootLineForgets(fs: FileSystem, v: Variant, depth: nat, m: Machine, fields: seq<string>)
    requires Ready(fs, v, depth, m) && m.tag == RootLine
    ensures Ready(fs, v, depth, m.(fields := fields, plan := Blank))
    ensures Run(fs, v, depth, m) == Run(fs, v, depth, m.(fields := fields, plan := Blank))
  {
    var n := m.(fields := fields, plan := Blank);
    assert RootLineStep(fs, v, depth, m) == RootLineStep(fs, v, depth, n);
    StepCases(fs, v, depth, m);
    StepCases(fs, v, depth, n);
  }

  /** A line of tokens that is not an `include` is what the next scan
      returns. */
  lemma ScanRule(fs: FileSystem, v: Variant, depth: nat, cur: seq<string>)
    requires cur != [] && Tokens(cur[0]) != [] && Tokens(cur[0])[0] != IncludeKeyword
    requires Expandable(fs, v, cur, depth)
    ensures Scan(fs, v, depth, cur, [], None) == Scanned(true, cur[1..], [], Tokens(cur[0]), None)
  {
    ScanTokens(fs, v, depth, cur, [], None);
  }

  /** The step at a rule line: `planLine` routes it and its handler applies
      it. */
  lemma RuleStep(fs: FileSystem, v: Variant, depth: nat, m: Machine)
    requires m.tag == PlanLine && m.prev == [] && m.err == None && m.cur != []
    requires Tokens(m.cur[0]) != [] && IsRule(Tokens(m.cur[0]))
    requires Expandable(fs, v, m.cur, depth)
    ensures var t := Tokens(m.cur[0]);
      Ready(fs, v, depth, m.(cur := m.cur[1..], fields := t, plan := Apply(m.plan, t)))
      && Run(fs, v, depth, m) == Run(fs, v, depth, m.(cur := m.cur[1..], fields := t, plan := Apply(m.plan, t)))
  {
    var t := Tokens(m.cur[0]);
    ScanRule(fs, v, depth, m.cur);
    var m1 := PlanLineStep(fs, v, depth, m);
    StepCases(fs, v, depth, m);
    StepCases(fs, v, depth, m1);
    var m2 := m.(cur := m.cur[1..], fields := t, plan := Apply(m.plan, t));
    if IsKeepFor(t) {
      assert m1 == m.(tag := Keep, cur := m.cur[1..], fields := t);
      assert KeepStep(v, m1) == m2;
    } else if IsKeepLatest(t) {
      assert m1 == m.(tag := KeepLatest, cur := m.cur[1..], fields := t);
      assert KeepLatestStep(v, m1) == m2;
    } else {
      assert m1 == m.(tag := PathLine, cur := m.cur[1..], fields := t);
      assert PathStep(v, m1) == m2;
    }
  }

  /** The step at a blank line or a comment, at the root or inside a block:
      it is skipped. */
  lemma BlankStep(fs: FileSystem, v: Variant, depth: nat, m: Machine)
    requires (m.tag == RootLine || m.tag == PlanLine) && m.cur != [] && Tokens(m.cur[0]) == []
    requires Ready(fs, v, depth, m.(cur := m.cur[1..]))
    ensures Ready(fs, v, depth, m)
    ensures Run(fs, v, depth, m) == Run(fs, v, depth, m.(cur := m.cur[1..]))
  {
    var n := m.(cur := m.cur[1..]);
    ExpandableHead(fs, v, depth, m.cur);
    ScanBlank(fs, v, depth, m.cur, m.prev, m.err);
    if m.tag == RootLine {
      assert RootLineStep(fs, v, depth, m) == RootLineStep(fs, v, depth, n);
    } else {
      assert PlanLineStep(fs, v, depth, m) == PlanLineStep(fs, v, depth, n);
    }
    StepCases(fs, v, depth, m);
    StepCases(fs, v, depth, n);
  }

  /** Inside a block, the tokens left from the line before do not matter. */
  lemma PlanLineForgets(fs: FileSystem, v: Variant, depth: nat, m: Machine, fields: seq<string>)
    requires Ready(fs, v, depth, m) && m.tag == PlanLine
    ensures Ready(fs, v, depth, m.(fields := fields))
    ensures Run(fs, v, depth, m) == Run(fs, v, depth, m.(fields := fields))
  {
    var n := m.(fields := fields);
    assert PlanLineStep(fs, v, depth, m) == PlanLineStep(fs, v, depth, n);
    StepCases(fs, v, depth, m);
    StepCases(fs, v, depth, n);
  }

  lemma HeadTail(body: seq<string>, rest: seq<string>)
    requires body != []
    ensures (body + rest)[0] == body[0] && (body + rest)[1..] == body[1..] + rest
  {
  }

  /** A blank line or comment at the head of a body is skipped. */
  lemma {:induction false} BodyBlank(fs: FileSystem, v: Variant, depth: nat, m: Machine, body: seq<string>, rest: seq<string>)
    requires m.tag == PlanLine && m.prev == [] && m.err == None && m.plan.latest >= 1
    requires m.cur == body + rest && body != [] && Tokens(body[0]) == []
    requires AllRules(body) && Expandable(fs, v, rest, depth)
    ensures Build(m.plan, body).latest >= 1
    ensures Ready(fs, v, depth, m)
    ensures Run(fs, v, depth, m) == Run(fs, v, depth, AfterBody(m, body, rest))
    decreases |body|, 0
  {
    HeadTail(body, rest);
    var n := m.(cur := m.cur[1..]);
    BodyRun(fs, v, depth, n, body[1..], rest);
    BlankStep(fs, v, depth, m);
    assert AfterBody(m, body, rest) == AfterBody(n, body[1..], rest);
  }

  /** A rule at the head of a body is applied to the plan. */
  lemma {:induction false} BodyRule(fs: FileSystem, v: Variant, depth: nat, m: Machine, body: seq<string>, rest: seq<string>)
    requires m.tag == PlanLine && m.prev == [] && m.err == None && m.plan.latest >= 1
    requires m.cur == body + rest && body != [] && Tokens(body[0]) != []
    requires AllRules(body) && Expandable(fs, v, rest, depth)
    ensures Build(m.plan, body).latest >= 1
    ensures Ready(fs, v, depth, m)
    ensures Run(fs, v, depth, m) == Run(fs, v, depth, AfterBody(m, body, rest))
    decreases |body|, 0
  {
    HeadTail(body, rest);
    var t := Tokens(body[0]);
    assert IsRule(t) && AllRules(body[1..]);
    var n := m.(cur := m.cur[1..], fields := t, plan := Apply(m.plan, t));
    assert AfterBody(m, body, rest) == AfterBody(n, body[1..], rest) by {
      assert Build(m.plan, body) == Build(n.plan, body[1..]);
    }
    assert Ready(fs, v, depth, n) && Run(fs, v, depth, n) == Run(fs, v, depth, AfterBody(n, body[1..], rest))
        && Build(n.plan, body[1..]).latest >= 1 by {
      BodyRun(fs, v, depth, n, body[1..], rest);
    }
    RuleHead(t);
    ExpandableHead(fs, v, depth, m.cur);
    RuleStep(fs, v, depth, m);
  }

  /** The lines of a block body: every rule is applied to the plan, in
      order, and blank lines and comments are skipped. */
  lemma {:induction false} BodyRun(fs: FileSystem, v: Variant, depth: nat, m: Machine, body: seq<string>, rest: seq<string>)
    requires m.tag == PlanLine && m.prev == [] && m.err == None && m.plan.latest >= 1
    requires m.cur == body + rest && AllRules(body) && Expandable(fs, v, rest, depth)
    ensures Build(m.plan, body).latest >= 1
    ensures Ready(fs, v, depth, m)
    ensures Run(fs, v, depth, m) == Run(fs, v, depth, AfterBody(m, body, rest))
    decreases |body|, 1
  {
    if body == [] {
      assert m.cur == rest;
      PlanLineForgets(fs, v, depth, m, []);
      assert AfterBody(m, body, rest) == m.(fields := []);
    } else if Tokens(body[0]) == [] {
      BodyBlank(fs, v, depth, m, body, rest);
    } else {
      BodyRule(fs, v, depth, m, body, rest);
    }
  }

  /** The step at the closing `}`: `end` checks the plan; a plan with a path
      is stored and the reader is back at the root, and a plan without one
      is the error "no paths defined". */
  lemma CloseStep(fs: FileSystem, v: Variant, depth: nat, m: Machine)
    requires m.tag == PlanLine && m.prev == [] && m.err == None && m.cur != []
    requires Tokens(m.cur[0]) == [BlockEnd] && m.plan.latest >= 1
    requires Expandable(fs, v, m.cur, depth)
    ensures Expandable(fs, v, m.cur[1..], depth)
    ensures |m.plan.paths| >= 1 ==>
      Run(fs, v, depth, m) == Run(fs, v, depth, Start(m.plans + [m.plan], m.cur[1..]))
    ensures |m.plan.paths| == 0 ==>
      Run(fs, v, depth, m).plans == m.plans && Run(fs, v, depth, m).err == Some(NoPaths)
  {
    ScanRule(fs, v, depth, m.cur);
    StepCases(fs, v, depth, m);
    RunStep(fs, v, depth, m);
    var m1 := Step(fs, v, depth, m);
    assert m1 == m.(tag := End, cur := m.cur[1..], fields := [BlockEnd]);
    StepCases(fs, v, depth, m1);
    RunStep(fs, v, depth, m1);
    var m2 := Step(fs, v, depth, m1);
    assert m2 == EndStep(v, m1);
    if |m.plan.paths| >= 1 {
      assert m2 == Start(m.plans + [m.plan], m.cur[1..]).(fields := [BlockEnd]);
      RootLineForgets(fs, v, depth, m2, []);
    } else {
      assert m2.tag == Halt && m2.plans == m.plans && m2.err == Some(NoPaths);
    }
  }

  /** The step at the end of the input inside a block: "unterminated plan". */
  lemma EndOfInputStep(fs: FileSystem, v: Variant, depth: nat, m: Machine)
    requires m.tag == PlanLine && m.prev == [] && m.err == None && m.cur == []
    ensures Ready(fs, v, depth, m)
    ensures Run(fs, v, depth, m).plans == m.plans && Run(fs, v, depth, m).err == Some(UnterminatedPlan)
  {
    StepCases(fs, v, depth, m);
    assert Step(fs, v, depth, m).tag == Halt;
  }

  /** The step at `plan NAME {`: `rootLine` opens a new plan. */
  lemma OpenStep(fs: FileSystem, v: Variant, depth: nat, m: Machine)
    requires m.tag == RootLine && m.prev == [] && m.err == None && m.cur != []
    requires IsPlanStart(Tokens(m.cur[0])) && Expandable(fs, v, m.cur, depth)
    ensures var t := Tokens(m.cur[0]);
      Ready(fs, v, depth, Machine(PlanLine, NewPlan(t[1]), m.plans, m.cur[1..], [], t, None))
      && Run(fs, v, depth, m) == Run(fs, v, depth, Machine(PlanLine, NewPlan(t[1]), m.plans, m.cur[1..], [], t, None))
  {
    var t := Tokens(m.cur[0]);
    ScanRule(fs, v, depth, m.cur);
    assert RootLineStep(fs, v, depth, m) == Machine(PlanLine, NewPlan(t[1]), m.plans, m.cur[1..], [], t, None);
    StepCases(fs, v, depth, m);
  }

  /** The reader after the opening line and the body of a block: at the
      line after the body, with the plan the rules built. */
  lemma OpenBody(fs: FileSystem, v: Variant, depth: nat, plans: seq<Plan>,
                 open: string, body: seq<string>, rest: seq<string>) returns (m: Machine)
    requires IsPlanStart(Tokens(open)) && AllRules(body) && Expandable(fs, v, rest, depth)
    ensures m == Machine(PlanLine, Build(NewPlan(Tokens(open)[1]), body), plans, rest, [], [], None)
    ensures m.plan.latest >= 1
    ensures Ready(fs, v, depth, Start(plans, [open] + body + rest))
    ensures Run(fs, v, depth, Start(plans, [open] + body + rest)) == Run(fs, v, depth, m)
  {
    var tail := body + rest;
    var lines := [open] + tail;
    Assoc(open, body, rest);
    ConsParts(open, tail);
    var t := Tokens(open);
    var n := Machine(PlanLine, NewPlan(t[1]), plans, tail, [], t, None);
    BodyRun(fs, v, depth, n, body, rest);
    ExpandableCons(fs, v, depth, open, tail);
    OpenStep(fs, v, depth, Start(plans, lines));
    m := AfterBody(n, body, rest);
  }

  /** A well-formed block is stored: the line `plan NAME {`, rule lines
      (blank lines and comments among them) holding at least one `path`, and
      a closing `}` make the reader append the plan its rules build from a
      new plan (`Latest` 1, no paths, no periods) to the plans before it,
      and then read the rest as if the block had not been there. Applied to
      each block in turn, this gives the plans of the input in source
      order, in both readers. */
  lemma BlockStored(fs: FileSystem, v: Variant, depth: nat, plans: seq<Plan>,
                    open: string, body: seq<string>, close: string, rest: seq<string>)
    requires IsPlanStart(Tokens(open))
    requires AllRules(body) && Tokens(close) == [BlockEnd] && Expandable(fs, v, rest, depth)
    requires |Build(NewPlan(Tokens(open)[1]), body).paths| >= 1
    ensures Ready(fs, v, depth, Start(plans, [open] + body + [close] + rest))
    ensures Run(fs, v, depth, Start(plans, [open] + body + [close] + rest))
         == Run(fs, v, depth, Start(plans + [Build(NewPlan(Tokens(open)[1]), body)], rest))
  {
    var after := [close] + rest;
    var lines := [open] + body + [close] + rest;
    Regroup(open, body, close, rest);
    var m := Machine(PlanLine, Build(NewPlan(Tokens(open)[1]), body), plans, after, [], [], None);
    assert Ready(fs, v, depth, Start(plans, lines)) && Run(fs, v, depth, Start(plans, lines)) == Run(fs, v, depth, m)
        && m.plan.latest >= 1 && Expandable(fs, v, after, depth) by {
      ExpandableCons(fs, v, depth, close, rest);
      var m' := OpenBody(fs, v, depth, plans, open, body, after);
    }
    assert m.cur[0] == close && m.cur[1..] == rest;
    CloseStep(fs, v, depth, m);
  }

  /** A block whose rules name no path is refused at its `}` with "no paths
      defined", and no plan is stored. */
  lemma BlockWithoutPath(fs: FileSystem, v: Variant, depth: nat, plans: seq<Plan>,
                         open: string, body: seq<string>, close: string, rest: seq<string>)
    requires IsPlanStart(Tokens(open))
    requires AllRules(body) && Tokens(close) == [BlockEnd] && Expandable(fs, v, rest, depth)
    requires Build(NewPlan(Tokens(open)[1]), body).paths == []
    ensures Ready(fs, v, depth, Start(plans, [open] + body + [close] + rest))
    ensures Run(fs, v, depth, Start(plans, [open] + body + [close] + rest)).plans == plans
    ensures Run(fs, v, depth, Start(plans, [open] + body + [close] + rest)).err == Some(NoPaths)
  {
    var after := [close] + rest;
    var lines := [open] + body + [close] + rest;
    Regroup(open, body, close, rest);
    var m := Machine(PlanLine, Build(NewPlan(Tokens(open)[1]), body), plans, after, [], [], None);
    assert Ready(fs, v, depth, Start(plans, lines)) && Run(fs, v, depth, Start(plans, lines)) == Run(fs, v, depth, m)
        && m.plan.latest >= 1 && Expandable(fs, v, after, depth) by {
      ExpandableCons(fs, v, depth, close, rest);
      var m' := OpenBody(fs, v, depth, plans, open, body, after);
    }
    assert m.cur[0] == close && m.cur[1..] == rest;
    CloseStep(fs, v, depth, m);
  }

  /** A block the input ends in is "unterminated plan", and no plan is
      stored. */
  lemma BlockUnterminated(fs: FileSystem, v: Variant, depth: nat, plans: seq<Plan>, open: string, body: seq<string>)
    requires IsPlanStart(Tokens(open)) && AllRules(body)
    ensures Ready(fs, v, depth, Start(plans, [open] + body))
    ensures Run(fs, v, depth, Start(plans, [open] + body)).plans == plans
    ensures Run(fs, v, depth, Start(plans, [open] + body)).err == Some(UnterminatedPlan)
  {
    var m := OpenBody(fs, v, depth, plans, open, body, []);
    assert [open] + body + [] == [open] + body;
    EndOfInputStep(fs, v, depth, m);
  }
}
