/** The inputs of the reader's table of examples (`conf/Conf_test.go`,
    `TestRead`) and what `Read` makes of them: the plans stored, in the
    order of the input, and the error returned. Each holds for both readers,
    any file system and any `include` depth. */
module ReadCases {
  import opened Wrappers
  import opened Strings
  import opened Strconv
  import opened ConfTypes
  import opened Duration
  import opened Scanner
  import opened Machine
  import opened Reading
  import opened Blocks
  import opened Layout

  // ---------------------------------------------------------------------
  // The inputs, as Go writes them

  // The multi-line inputs are Go raw strings; each is written here as its
  // lines joined by newlines.
  const EmptyText := ""
  const CommentsLines := ["", "", "# Hello.", "\t// Comment"]
  const CommentsText := Join(CommentsLines, "\n")
  const UnterminatedLines := ["", "plan buh {"]
  const UnterminatedText := Join(UnterminatedLines, "\n")
  const NoPathLines := ["", "plan buh {", "keep latest 10", "}"]
  const NoPathText := Unlines(NoPathLines)
  const LatestLines := ["", "# A plan for testing", "plan buh {", "path /buh", "keep latest 10", "}"]
  const LatestText := Join(LatestLines, "\n")
  const PeriodLines := ["", "# A plan for testing", "plan buh {", "path /buh", "keep 1d for 30d", "keep latest 10", "}"]
  const PeriodText := Join(PeriodLines, "\n")
  const SpacingLines := ["", "plan buh {", "", "path /buh", "keep 1d   for 30d", "\t# Comment.", "",
                         "\tkeep 1h for 1d // A comment!", "keep latest 10", "    }"]
  const SpacingText := Join(SpacingLines, "\n")
  const TwoPathLines := ["", "plan buh {", "path /buh", "path /buh/2", "keep 1d for 30d", "keep 1h for 1d", "}"]
  const TwoPathText := Join(TwoPathLines, "\n")

  // ---------------------------------------------------------------------
  // Words and lines

  predicate Printable(w: string)
  {
    forall i :: 0 <= i < |w| ==> '!' <= w[i] <= '~' && w[i] != '#'
  }

  lemma PrintableWord(w: string)
    requires w != [] && Printable(w) && NoSlashes(w)
    ensures IsWord(w)
  {
  }

  lemma KeywordWords()
    ensures IsWord("plan") && IsWord("buh") && IsWord("{") && IsWord("}")
    ensures IsWord("path") && IsWord("keep") && IsWord("latest") && IsWord("for")
  {
    PrintableWord("plan");
    PrintableWord("buh");
    PrintableWord("{");
    PrintableWord("}");
    PrintableWord("path");
    PrintableWord("keep");
    PrintableWord("latest");
    PrintableWord("for");
  }

  lemma ValueWords()
    ensures IsWord("/buh") && IsWord("/buh/2") && IsWord("10")
    ensures IsWord("1d") && IsWord("30d") && IsWord("1h")
  {
    PrintableWord("/buh");
    PrintableWord("/buh/2");
    PrintableWord("10");
    PrintableWord("1d");
    PrintableWord("30d");
    PrintableWord("1h");
  }

  /** The lines without tokens. */
  lemma EmptyLine()
    ensures Tokens("") == []
  {
    TokensOfBlank("", "");
    assert "" + "" == "";
  }

  lemma HelloLine()
    ensures Tokens("# Hello.") == []
  {
    TokensOfBlank("", "# Hello.");
    assert "" + "# Hello." == "# Hello.";
  }

  lemma SlashCommentLine()
    ensures Tokens("\t// Comment") == []
  {
    TokensOfBlank("\t", "// Comment");
    assert "\t" + "// Comment" == "\t// Comment";
  }

  lemma TestingLine()
    ensures Tokens("# A plan for testing") == []
  {
    TokensOfBlank("", "# A plan for testing");
    assert "" + "# A plan for testing" == "# A plan for testing";
  }

  lemma TabCommentLine()
    ensures Tokens("\t# Comment.") == []
  {
    TokensOfBlank("\t", "# Comment.");
    assert "\t" + "# Comment." == "\t# Comment.";
  }

  lemma OpenLine()
    ensures Tokens("plan buh {") == ["plan", "buh", "{"]
  {
    KeywordWords();
    var ws := ["plan", "buh", "{"];
    var gaps := [" ", " "];
    assert Words(ws) && Gaps(gaps);
    assert "" + Spaced(ws, gaps) + "" + "" == "plan buh {";
    TokensOfLine("", ws, gaps, "", "");
  }

  lemma CloseLine()
    ensures Tokens("}") == ["}"]
  {
    KeywordWords();
    assert Words(["}"]) && Gaps([]);
    assert "" + Spaced(["}"], []) + "" + "" == "}";
    TokensOfLine("", ["}"], [], "", "");
  }

  lemma IndentedCloseLine()
    ensures Tokens("    }") == ["}"]
  {
    KeywordWords();
    assert Words(["}"]) && Gaps([]);
    assert "    " + Spaced(["}"], []) + "" + "" == "    }";
    TokensOfLine("    ", ["}"], [], "", "");
  }

  lemma PathLine()
    ensures Tokens("path /buh") == ["path", "/buh"]
  {
    KeywordWords();
    ValueWords();
    assert Words(["path", "/buh"]) && Gaps([" "]);
    assert "" + Spaced(["path", "/buh"], [" "]) + "" + "" == "path /buh";
    TokensOfLine("", ["path", "/buh"], [" "], "", "");
  }

  lemma SecondPathLine()
    ensures Tokens("path /buh/2") == ["path", "/buh/2"]
  {
    KeywordWords();
    ValueWords();
    assert Words(["path", "/buh/2"]) && Gaps([" "]);
    assert "" + Spaced(["path", "/buh/2"], [" "]) + "" + "" == "path /buh/2";
    TokensOfLine("", ["path", "/buh/2"], [" "], "", "");
  }

  lemma LatestLine()
    ensures Tokens("keep latest 10") == ["keep", "latest", "10"]
  {
    KeywordWords();
    ValueWords();
    var ws := ["keep", "latest", "10"];
    var gaps := [" ", " "];
    assert Words(ws) && Gaps(gaps);
    assert "" + Spaced(ws, gaps) + "" + "" == "keep latest 10";
    TokensOfLine("", ws, gaps, "", "");
  }

  lemma DayLine()
    ensures Tokens("keep 1d for 30d") == ["keep", "1d", "for", "30d"]
  {
    KeywordWords();
    ValueWords();
    var ws := ["keep", "1d", "for", "30d"];
    assert Words(ws) && Gaps([" ", " ", " "]);
    assert "" + Spaced(ws, [" ", " ", " "]) + "" + "" == "keep 1d for 30d";
    TokensOfLine("", ws, [" ", " ", " "], "", "");
  }

  lemma WideDayLine()
    ensures Tokens("keep 1d   for 30d") == ["keep", "1d", "for", "30d"]
  {
    KeywordWords();
    ValueWords();
    var ws := ["keep", "1d", "for", "30d"];
    assert Words(ws) && Gaps([" ", "   ", " "]);
    assert "" + Spaced(ws, [" ", "   ", " "]) + "" + "" == "keep 1d   for 30d";
    TokensOfLine("", ws, [" ", "   ", " "], "", "");
  }

  /** The words of `keep 1h for 1d`, single-spaced. */
  lemma HourWords()
    ensures Words(["keep", "1h", "for", "1d"]) && Gaps([" ", " ", " "])
    ensures Spaced(["keep", "1h", "for", "1d"], [" ", " ", " "]) == "keep 1h for 1d"
  {
    KeywordWords();
    ValueWords();
  }

  lemma HourLine()
    ensures Tokens("keep 1h for 1d") == ["keep", "1h", "for", "1d"]
  {
    HourWords();
    assert "" + "keep 1h for 1d" + "" + "" == "keep 1h for 1d";
    TokensOfLine("", ["keep", "1h", "for", "1d"], [" ", " ", " "], "", "");
  }

  lemma CommentedHourText()
    ensures "\t" + "keep 1h for 1d" + " " + "// A comment!" == "\tkeep 1h for 1d // A comment!"
  {
  }

  lemma CommentedHourLine()
    ensures Tokens("\tkeep 1h for 1d // A comment!") == ["keep", "1h", "for", "1d"]
  {
    HourWords();
    CommentedHourText();
    TokensOfLine("\t", ["keep", "1h", "for", "1d"], [" ", " ", " "], " ", "// A comment!");
  }

  /** The numbers of the examples. */
  lemma Ten()
    ensures ParseInt("10") == Success(10)
  {
    assert FormatNat(10) == "10";
    ParseFormat(10);
  }

  lemma OneDay()
    ensures ParseDuration("1d") == Parsed(Day, None)
  {
    assert FormatNat(1) + ['d'] == "1d";
    ParseDurationRoundTrip(1, 'd');
  }

  lemma ThirtyDays()
    ensures ParseDuration("30d") == Parsed(30 * Day, None)
  {
    assert FormatNat(30) + ['d'] == "30d";
    ParseDurationRoundTrip(30, 'd');
  }

  lemma OneHour()
    ensures ParseDuration("1h") == Parsed(Hour, None)
  {
    assert FormatNat(1) + ['h'] == "1h";
    ParseDurationRoundTrip(1, 'h');
  }

  // ---------------------------------------------------------------------
  // The inputs, split into lines

  lemma CommentsSplit()
    ensures SplitLines(CommentsText) == CommentsLines
  {
    SplitLinesJoin(CommentsLines);
  }

  lemma UnterminatedSplit()
    ensures SplitLines(UnterminatedText) == UnterminatedLines
  {
    SplitLinesJoin(UnterminatedLines);
  }

  lemma LatestSplit()
    ensures SplitLines(LatestText) == LatestLines
  {
    SplitLinesJoin(LatestLines);
  }

  lemma PeriodSplit()
    ensures SplitLines(PeriodText) == PeriodLines
  {
    SplitLinesJoin(PeriodLines);
  }

  lemma SpacingSplit()
    ensures SplitLines(SpacingText) == SpacingLines
  {
    SplitLinesJoin(SpacingLines);
  }

  lemma TwoPathSplit()
    ensures SplitLines(TwoPathText) == TwoPathLines
  {
    SplitLinesJoin(TwoPathLines);
  }

  lemma NoPathSplit()
    ensures SplitLines(NoPathText) == NoPathLines
  {
    SplitLinesUnlines(NoPathLines);
  }

  // ---------------------------------------------------------------------
  // What each line of a block does

  /** `plan NAME {`. */
  predicate Opens(line: string, name: string)
  {
    IsPlanStart(Tokens(line)) && Tokens(line)[1] == name
  }

  /** `}`. */
  predicate Closes(line: string)
  {
    Tokens(line) == [BlockEnd]
  }

  /** A rule that appends `path` to any plan's paths. */
  ghost predicate AddsPath(line: string, path: string)
  {
    Tokens(line) != [] && IsRule(Tokens(line))
    && forall p {:trigger Apply(p, Tokens(line))} :: Apply(p, Tokens(line)) == p.(paths := p.paths + [path])
  }

  /** A rule that appends `period` to any plan's periods. */
  ghost predicate AddsPeriod(line: string, period: Period)
  {
    Tokens(line) != [] && IsRule(Tokens(line))
    && forall p {:trigger Apply(p, Tokens(line))} :: Apply(p, Tokens(line)) == p.(periods := p.periods + [period])
  }

  /** A rule that sets any plan's `Latest` to `n`. */
  ghost predicate SetsLatest(line: string, n: int)
  {
    Tokens(line) != [] && IsRule(Tokens(line))
    && forall p {:trigger Apply(p, Tokens(line))} :: Apply(p, Tokens(line)) == p.(latest := n)
  }

  lemma OpenRole(line: string)
    requires Tokens(line) == ["plan", "buh", "{"]
    ensures Opens(line, "buh")
  {
  }

  lemma CloseRole(line: string)
    requires Tokens(line) == ["}"]
    ensures Closes(line)
  {
  }

  lemma PathRole(line: string, path: string)
    requires Tokens(line) == ["path", path]
    ensures AddsPath(line, path)
  {
  }

  lemma LatestRole(line: string)
    requires Tokens(line) == ["keep", "latest", "10"]
    ensures SetsLatest(line, 10)
  {
    Ten();
  }

  lemma DayRole(line: string)
    requires Tokens(line) == ["keep", "1d", "for", "30d"]
    ensures AddsPeriod(line, Period(Day, 30 * Day))
  {
    OneDay();
    ThirtyDays();
  }

  lemma HourRole(line: string)
    requires Tokens(line) == ["keep", "1h", "for", "1d"]
    ensures AddsPeriod(line, Period(Hour, Day))
  {
    OneHour();
    OneDay();
  }

  // ---------------------------------------------------------------------
  // The plans the block bodies build

  /** A rule line in front of a body: applied first. */
  lemma BuildRule(p: Plan, line: string, body: seq<string>)
    requires Tokens(line) != [] && IsRule(Tokens(line)) && AllRules(body)
    ensures AllRules([line] + body)
    ensures Build(p, [line] + body) == Build(Apply(p, Tokens(line)), body)
  {
    ConsParts(line, body);
  }

  /** A blank line in front of a body: skipped. */
  lemma BuildBlank(p: Plan, line: string, body: seq<string>)
    requires Tokens(line) == [] && AllRules(body)
    ensures AllRules([line] + body)
    ensures Build(p, [line] + body) == Build(p, body)
  {
    ConsParts(line, body);
  }

  lemma BuildLast(p: Plan, line: string)
    requires Tokens(line) != [] && IsRule(Tokens(line))
    ensures AllRules([line])
    ensures Build(p, [line]) == Apply(p, Tokens(line))
  {
    BuildRule(p, line, []);
    Last(line);
  }

  lemma NoPathBody(l2: string)
    requires SetsLatest(l2, 10)
    ensures AllRules([l2])
    ensures Build(NewPlan("buh"), [l2]) == Plan("buh", [], 10, [])
  {
    BuildLast(NewPlan("buh"), l2);
  }

  lemma LatestBody(l3: string, l4: string)
    requires AddsPath(l3, "/buh") && SetsLatest(l4, 10)
    ensures AllRules([l3, l4])
    ensures Build(NewPlan("buh"), [l3, l4]) == Plan("buh", ["/buh"], 10, [])
  {
    var p := NewPlan("buh");
    BuildLast(Apply(p, Tokens(l3)), l4);
    BuildRule(p, l3, [l4]);
    Pair(l3, l4);
  }

  /** Three rule lines apply in order. */
  lemma ThreeRules(p: Plan, a: string, b: string, c: string)
    requires Tokens(a) != [] && IsRule(Tokens(a))
    requires Tokens(b) != [] && IsRule(Tokens(b))
    requires Tokens(c) != [] && IsRule(Tokens(c))
    ensures AllRules([a, b, c])
    ensures Build(p, [a, b, c]) == Apply(Apply(Apply(p, Tokens(a)), Tokens(b)), Tokens(c))
  {
    var p1 := Apply(p, Tokens(a));
    BuildLast(Apply(p1, Tokens(b)), c);
    BuildRule(p1, b, [c]);
    BuildRule(p, a, [b] + [c]);
    Nest3(a, b, c);
  }

  /** Two blank lines, then two rules: only the rules count. */
  lemma BlanksThenRules(p: Plan, a: string, b: string, c: string, d: string)
    requires Tokens(a) == [] && Tokens(b) == []
    requires Tokens(c) != [] && IsRule(Tokens(c))
    requires Tokens(d) != [] && IsRule(Tokens(d))
    ensures AllRules([a] + ([b] + ([c] + [d])))
    ensures Build(p, [a] + ([b] + ([c] + [d]))) == Apply(Apply(p, Tokens(c)), Tokens(d))
  {
    BuildLast(Apply(p, Tokens(c)), d);
    BuildRule(p, c, [d]);
    BuildBlank(p, b, [c] + [d]);
    BuildBlank(p, a, [b] + ([c] + [d]));
  }

  /** The spaced-out body: a blank line, two rules, two blank lines, two
      rules. */
  lemma SpacedRules(p: Plan, l2: string, l3: string, l4: string, l5: string, l6: string, l7: string, l8: string)
    requires Tokens(l2) == [] && Tokens(l5) == [] && Tokens(l6) == []
    requires Tokens(l3) != [] && IsRule(Tokens(l3))
    requires Tokens(l4) != [] && IsRule(Tokens(l4))
    requires Tokens(l7) != [] && IsRule(Tokens(l7))
    requires Tokens(l8) != [] && IsRule(Tokens(l8))
    ensures AllRules([l2, l3, l4, l5, l6, l7, l8])
    ensures Build(p, [l2, l3, l4, l5, l6, l7, l8])
         == Apply(Apply(Apply(Apply(p, Tokens(l3)), Tokens(l4)), Tokens(l7)), Tokens(l8))
  {
    var p1 := Apply(p, Tokens(l3));
    var p2 := Apply(p1, Tokens(l4));
    var t5 := [l5] + ([l6] + ([l7] + [l8]));
    BlanksThenRules(p2, l5, l6, l7, l8);
    BuildRule(p1, l4, t5);
    BuildRule(p, l3, [l4] + t5);
    BuildBlank(p, l2, [l3] + ([l4] + t5));
    Nest7(l2, l3, l4, l5, l6, l7, l8);
  }

  lemma PeriodValue(l3: string, l4: string, l5: string, path: string, period: Period)
    requires AddsPath(l3, path) && AddsPeriod(l4, period) && SetsLatest(l5, 10)
    ensures Apply(Apply(Apply(NewPlan("buh"), Tokens(l3)), Tokens(l4)), Tokens(l5))
         == Plan("buh", [path], 10, [period])
  {
    Single(path);
    var p1 := Apply(NewPlan("buh"), Tokens(l3));
    assert p1 == Plan("buh", [path], 1, []);
    Single(period);
    var p2 := Apply(p1, Tokens(l4));
    assert p2 == Plan("buh", [path], 1, [period]);
  }

  lemma PeriodBody(l3: string, l4: string, l5: string)
    requires AddsPath(l3, "/buh") && AddsPeriod(l4, Period(Day, 30 * Day)) && SetsLatest(l5, 10)
    ensures AllRules([l3, l4, l5])
    ensures Build(NewPlan("buh"), [l3, l4, l5]) == Plan("buh", ["/buh"], 10, [Period(Day, 30 * Day)])
  {
    PeriodValue(l3, l4, l5, "/buh", Period(Day, 30 * Day));
    ThreeRules(NewPlan("buh"), l3, l4, l5);
  }

  /** A `path` line in front of a body. */
  lemma BuildPath(p: Plan, line: string, path: string, body: seq<string>)
    requires AddsPath(line, path) && AllRules(body)
    ensures AllRules([line] + body)
    ensures Build(p, [line] + body) == Build(p.(paths := p.paths + [path]), body)
  {
    BuildRule(p, line, body);
  }

  /** A `keep F for A` line in front of a body. */
  lemma BuildPeriod(p: Plan, line: string, period: Period, body: seq<string>)
    requires AddsPeriod(line, period) && AllRules(body)
    ensures AllRules([line] + body)
    ensures Build(p, [line] + body) == Build(p.(periods := p.periods + [period]), body)
  {
    BuildRule(p, line, body);
  }

  lemma TwoPathBuild(l2: string, l3: string, l4: string, l5: string,
                     path1: string, path2: string, period1: Period, period2: Period)
    requires AddsPath(l2, path1) && AddsPath(l3, path2)
    requires AddsPeriod(l4, period1) && AddsPeriod(l5, period2)
    ensures AllRules([l2, l3, l4, l5])
    ensures Build(NewPlan("buh"), [l2, l3, l4, l5]) == Plan("buh", [path1, path2], 1, [period1, period2])
  {
    var p3 := Plan("buh", [path1, path2], 1, [period1]);
    BuildPeriod(p3, l5, period2, []);
    Last(l5);
    Pair(period1, period2);
    var p2 := Plan("buh", [path1, path2], 1, []);
    BuildPeriod(p2, l4, period1, [l5]);
    Single(period1);
    var p1 := Plan("buh", [path1], 1, []);
    BuildPath(p1, l3, path2, [l4] + [l5]);
    Pair(path1, path2);
    BuildPath(NewPlan("buh"), l2, path1, [l3] + ([l4] + [l5]));
    Single(path1);
    Nest4(l2, l3, l4, l5);
  }

  lemma TwoPathBody(l2: string, l3: string, l4: string, l5: string)
    requires AddsPath(l2, "/buh") && AddsPath(l3, "/buh/2")
    requires AddsPeriod(l4, Period(Day, 30 * Day)) && AddsPeriod(l5, Period(Hour, Day))
    ensures AllRules([l2, l3, l4, l5])
    ensures Build(NewPlan("buh"), [l2, l3, l4, l5])
         == Plan("buh", ["/buh", "/buh/2"], 1, [Period(Day, 30 * Day), Period(Hour, Day)])
  {
    TwoPathBuild(l2, l3, l4, l5, "/buh", "/buh/2", Period(Day, 30 * Day), Period(Hour, Day));
  }

  lemma SpacingValue(l3: string, l4: string, l7: string, l8: string,
                     path: string, period1: Period, period2: Period)
    requires AddsPath(l3, path) && AddsPeriod(l4, period1)
    requires AddsPeriod(l7, period2) && SetsLatest(l8, 10)
    ensures Apply(Apply(Apply(Apply(NewPlan("buh"), Tokens(l3)), Tokens(l4)), Tokens(l7)), Tokens(l8))
         == Plan("buh", [path], 10, [period1, period2])
  {
    Single(path);
    var p1 := Apply(NewPlan("buh"), Tokens(l3));
    assert p1 == Plan("buh", [path], 1, []);
    Single(period1);
    var p2 := Apply(p1, Tokens(l4));
    assert p2 == Plan("buh", [path], 1, [period1]);
    Pair(period1, period2);
    var p3 := Apply(p2, Tokens(l7));
    assert p3 == Plan("buh", [path], 1, [period1, period2]);
  }

  lemma SpacingBody(l2: string, l3: string, l4: string, l5: string, l6: string, l7: string, l8: string)
    requires Tokens(l2) == [] && AddsPath(l3, "/buh") && AddsPeriod(l4, Period(Day, 30 * Day))
    requires Tokens(l5) == [] && Tokens(l6) == []
    requires AddsPeriod(l7, Period(Hour, Day)) && SetsLatest(l8, 10)
    ensures AllRules([l2, l3, l4, l5, l6, l7, l8])
    ensures Build(NewPlan("buh"), [l2, l3, l4, l5, l6, l7, l8])
         == Plan("buh", ["/buh"], 10, [Period(Day, 30 * Day), Period(Hour, Day)])
  {
    SpacingValue(l3, l4, l7, l8, "/buh", Period(Day, 30 * Day), Period(Hour, Day));
    SpacedRules(NewPlan("buh"), l2, l3, l4, l5, l6, l7, l8);
  }

  // ---------------------------------------------------------------------
  // Sequence shapes

  lemma Last(line: string)
    ensures [line] + [] == [line]
  {
  }

  lemma BlankPair(a: string, b: string)
    requires Tokens(a) == [] && Tokens(b) == []
    ensures AllBlank([a, b])
  {
  }

  lemma BlankOne(a: string)
    requires Tokens(a) == []
    ensures AllBlank([a])
  {
  }

  // Identities between sequence displays. Each is proved here on its own
  // because proving it inside a case lemma, next to that case's unfolded
  // reader, costs the solver more than the case can afford.

  lemma Pair<T>(a: T, b: T)
    ensures [a] + [b] == [a, b]
  {
  }

  lemma Single<T>(a: T)
    ensures [] + [a] == [a]
  {
  }

  lemma Two(a: string, b: string)
    ensures [a] + [b] + [] == [a, b]
  {
  }

  lemma Four(a: string, b: string, c: string, d: string)
    ensures [a] + [b] + [c] + [d] == [a, b, c, d]
  {
  }

  lemma Six(a: string, b: string, c: string, d: string, e: string, f: string)
    ensures [a, b] + [c] + [d, e] + [f] == [a, b, c, d, e, f]
  {
  }

  lemma Nest3(a: string, b: string, c: string)
    ensures [a] + ([b] + [c]) == [a, b, c]
  {
  }

  lemma Nest4(a: string, b: string, c: string, d: string)
    ensures [a] + ([b] + ([c] + [d])) == [a, b, c, d]
  {
  }

  lemma Nest7(a: string, b: string, c: string, d: string, e: string, f: string, g: string)
    ensures [a] + ([b] + ([c] + ([d] + ([e] + ([f] + [g]))))) == [a, b, c, d, e, f, g]
  {
  }

  lemma SevenLines(a: string, b: string, c: string, d: string, e: string, f: string, g: string)
    ensures [a, b] + [c] + [d, e, f] + [g] == [a, b, c, d, e, f, g]
  {
  }

  lemma SevenOneBlank(a: string, b: string, c: string, d: string, e: string, f: string, g: string)
    ensures [a] + [b] + [c, d, e, f] + [g] == [a, b, c, d, e, f, g]
  {
  }

  lemma TenLines(a: string, b: string, c: string, d: string, e: string, f: string, g: string, h: string, i: string, j: string)
    ensures [a] + [b] + [c, d, e, f, g, h, i] + [j] == [a, b, c, d, e, f, g, h, i, j]
  {
  }

  /** The texts of the two errors of these examples. */
  lemma Messages()
    ensures Message(UnterminatedPlan) == "unterminated plan"
    ensures Message(NoPaths) == "no paths defined"
  {
  }

  // ---------------------------------------------------------------------
  // The reader over inputs of one block

  /** A blank line or comment before the input changes nothing. */
  lemma LeadingBlank(fs: FileSystem, v: Variant, depth: nat, plans: seq<Plan>, line: string, lines: seq<string>)
    requires Tokens(line) == [] && Ready(fs, v, depth, Start(plans, lines))
    ensures Ready(fs, v, depth, Start(plans, [line] + lines))
    ensures Run(fs, v, depth, Start(plans, [line] + lines)) == Run(fs, v, depth, Start(plans, lines))
  {
    ConsParts(line, lines);
    BlankStep(fs, v, depth, Start(plans, [line] + lines));
  }

  lemma Prepend(blanks: seq<string>, lines: seq<string>)
    requires blanks != []
    ensures blanks + lines == [blanks[0]] + (blanks[1..] + lines)
  {
  }

  lemma NoBlanks(blanks: seq<string>, lines: seq<string>)
    requires blanks == []
    ensures blanks + lines == lines
  {
  }

  /** Any number of blank lines and comments before the input change
      nothing. */
  lemma {:induction false} LeadingBlanks(fs: FileSystem, v: Variant, depth: nat, plans: seq<Plan>,
                                         blanks: seq<string>, lines: seq<string>)
    requires AllBlank(blanks)
    requires Ready(fs, v, depth, Start(plans, lines))
    ensures Ready(fs, v, depth, Start(plans, blanks + lines))
    ensures Run(fs, v, depth, Start(plans, blanks + lines)) == Run(fs, v, depth, Start(plans, lines))
    decreases |blanks|
  {
    if blanks != [] {
      var tail := blanks[1..] + lines;
      var m := Start(plans, [blanks[0]] + tail);
      assert Ready(fs, v, depth, m) && Run(fs, v, depth, m) == Run(fs, v, depth, Start(plans, lines)) by {
        LeadingBlanks(fs, v, depth, plans, blanks[1..], lines);
        LeadingBlank(fs, v, depth, plans, blanks[0], tail);
      }
      Prepend(blanks, lines);
      assert Start(plans, blanks + lines) == m;
    } else {
      NoBlanks(blanks, lines);
    }
  }

  lemma Group(blanks: seq<string>, open: string, body: seq<string>, close: string)
    ensures blanks + [open] + body + [close] == blanks + ([open] + body + [close])
    ensures [open] + body + [close] + [] == [open] + body + [close]
  {
  }

  lemma GroupOpen(blanks: seq<string>, open: string, body: seq<string>)
    ensures blanks + [open] + body == blanks + ([open] + body)
  {
  }

  /** Blank lines and comments, then the three parts of a block: its
      `plan NAME {` line, its body of rules and its `}` line. */
  predicate OneBlockInput(blanks: seq<string>, open: string, body: seq<string>, close: string)
  {
    AllBlank(blanks) && IsPlanStart(Tokens(open)) && AllRules(body) && Closes(close)
  }

  /** An input of blank lines and one well-formed block stores that block's
      plan alone, with no error. */
  lemma OneBlock(fs: FileSystem, v: Variant, depth: nat, blanks: seq<string>,
                 open: string, body: seq<string>, close: string)
    requires OneBlockInput(blanks, open, body, close)
    requires |Build(NewPlan(Tokens(open)[1]), body).paths| >= 1
    ensures Ready(fs, v, depth, Start([], blanks + [open] + body + [close]))
    ensures Run(fs, v, depth, Start([], blanks + [open] + body + [close])).plans == [Build(NewPlan(Tokens(open)[1]), body)]
    ensures Run(fs, v, depth, Start([], blanks + [open] + body + [close])).err == None
  {
    var block := [open] + body + [close];
    var plan := Build(NewPlan(Tokens(open)[1]), body);
    Group(blanks, open, body, close);
    EndAtRoot(fs, v, depth, [] + [plan]);
    BlockStored(fs, v, depth, [], open, body, close, []);
    LeadingBlanks(fs, v, depth, [], blanks, block);
  }

  /** An input of blank lines and one block naming no path: "no paths
      defined", and nothing stored. */
  lemma OneBlockWithoutPath(fs: FileSystem, v: Variant, depth: nat, blanks: seq<string>,
                            open: string, body: seq<string>, close: string)
    requires OneBlockInput(blanks, open, body, close)
    requires Build(NewPlan(Tokens(open)[1]), body).paths == []
    ensures Ready(fs, v, depth, Start([], blanks + [open] + body + [close]))
    ensures Run(fs, v, depth, Start([], blanks + [open] + body + [close])).plans == []
    ensures Run(fs, v, depth, Start([], blanks + [open] + body + [close])).err == Some(NoPaths)
  {
    var block := [open] + body + [close];
    Group(blanks, open, body, close);
    EndAtRoot(fs, v, depth, []);
    BlockWithoutPath(fs, v, depth, [], open, body, close, []);
    LeadingBlanks(fs, v, depth, [], blanks, block);
  }

  /** An input of blank lines and a block the input ends in: "unterminated
      plan", and nothing stored. */
  lemma OneBlockUnterminated(fs: FileSystem, v: Variant, depth: nat, blanks: seq<string>,
                             open: string, body: seq<string>)
    requires AllBlank(blanks)
    requires IsPlanStart(Tokens(open)) && AllRules(body)
    ensures Ready(fs, v, depth, Start([], blanks + [open] + body))
    ensures Run(fs, v, depth, Start([], blanks + [open] + body)).plans == []
    ensures Run(fs, v, depth, Start([], blanks + [open] + body)).err == Some(UnterminatedPlan)
  {
    var block := [open] + body;
    GroupOpen(blanks, open, body);
    BlockUnterminated(fs, v, depth, [], open, body);
    LeadingBlanks(fs, v, depth, [], blanks, block);
  }

  /** The end of the input at the root: the plans stay, and there is no
      error. */
  lemma EndAtRoot(fs: FileSystem, v: Variant, depth: nat, plans: seq<Plan>)
    ensures Ready(fs, v, depth, Start(plans, []))
    ensures Run(fs, v, depth, Start(plans, [])).plans == plans
    ensures Run(fs, v, depth, Start(plans, [])).err == None
  {
    BlankInput(fs, v, depth, plans, []);
  }

  // ---------------------------------------------------------------------
  // The examples

  /** `{"", "", &Config{}}`: an empty input stores nothing and is no error. */
  lemma ReadEmpty(fs: FileSystem, v: Variant, depth: nat)
    ensures Ready(fs, v, depth, Start([], SplitLines(EmptyText)))
    ensures Run(fs, v, depth, Start([], SplitLines(EmptyText))).plans == []
    ensures Run(fs, v, depth, Start([], SplitLines(EmptyText))).err == None
  {
    EndAtRoot(fs, v, depth, []);
  }

  lemma BlankJoin(x: seq<string>, y: seq<string>)
    requires AllBlank(x) && AllBlank(y)
    ensures AllBlank(x + y)
  {
    forall i | 0 <= i < |x + y|
      ensures Trim((x + y)[i]) == []
    {
      if i < |x| {
        assert (x + y)[i] == x[i];
      } else {
        assert (x + y)[i] == y[i - |x|];
      }
    }
  }

  lemma Halves(a: string, b: string, c: string, d: string)
    ensures [a, b] + [c, d] == [a, b, c, d]
  {
  }

  lemma CommentsShape(fs: FileSystem, v: Variant, depth: nat, l0: string, l1: string, l2: string, l3: string)
    requires Tokens(l0) == [] && Tokens(l1) == [] && Tokens(l2) == [] && Tokens(l3) == []
    ensures Ready(fs, v, depth, Start([], [l0, l1, l2, l3]))
    ensures Run(fs, v, depth, Start([], [l0, l1, l2, l3])).plans == []
    ensures Run(fs, v, depth, Start([], [l0, l1, l2, l3])).err == None
  {
    BlankPair(l0, l1);
    BlankPair(l2, l3);
    BlankJoin([l0, l1], [l2, l3]);
    Halves(l0, l1, l2, l3);
    BlankInput(fs, v, depth, [], [l0, l1, l2, l3]);
  }

  /** Blank lines and comments store nothing and are no error. */
  lemma ReadComments(fs: FileSystem, v: Variant, depth: nat)
    ensures Ready(fs, v, depth, Start([], SplitLines(CommentsText)))
    ensures Run(fs, v, depth, Start([], SplitLines(CommentsText))).plans == []
    ensures Run(fs, v, depth, Start([], SplitLines(CommentsText))).err == None
  {
    CommentsSplit();
    EmptyLine();
    HelloLine();
    SlashCommentLine();
    var ls := CommentsLines;
    CommentsShape(fs, v, depth, ls[0], ls[1], ls[2], ls[3]);
  }

  lemma UnterminatedShape(fs: FileSystem, v: Variant, depth: nat, l0: string, l1: string)
    requires Tokens(l0) == [] && Opens(l1, "buh")
    ensures Ready(fs, v, depth, Start([], [l0, l1]))
    ensures Run(fs, v, depth, Start([], [l0, l1])).plans == []
    ensures Run(fs, v, depth, Start([], [l0, l1])).err == Some(UnterminatedPlan)
  {
    BlankOne(l0);
    OneBlockUnterminated(fs, v, depth, [l0], l1, []);
    Two(l0, l1);
  }

  /** A plan the input ends in: "unterminated plan", and nothing stored. */
  lemma ReadUnterminated(fs: FileSystem, v: Variant, depth: nat)
    ensures Ready(fs, v, depth, Start([], SplitLines(UnterminatedText)))
    ensures Run(fs, v, depth, Start([], SplitLines(UnterminatedText))).plans == []
    ensures Run(fs, v, depth, Start([], SplitLines(UnterminatedText))).err == Some(UnterminatedPlan)
    ensures Message(UnterminatedPlan) == "unterminated plan"
  {
    UnterminatedSplit();
    EmptyLine();
    OpenLine();
    OpenRole("plan buh {");
    UnterminatedShape(fs, v, depth, UnterminatedLines[0], UnterminatedLines[1]);
    Messages();
  }

  lemma NoPathShape(fs: FileSystem, v: Variant, depth: nat, l0: string, l1: string, l2: string, l3: string)
    requires Tokens(l0) == [] && Opens(l1, "buh") && SetsLatest(l2, 10) && Closes(l3)
    ensures Ready(fs, v, depth, Start([], [l0, l1, l2, l3]))
    ensures Run(fs, v, depth, Start([], [l0, l1, l2, l3])).plans == []
    ensures Run(fs, v, depth, Start([], [l0, l1, l2, l3])).err == Some(NoPaths)
  {
    BlankOne(l0);
    NoPathBody(l2);
    OneBlockWithoutPath(fs, v, depth, [l0], l1, [l2], l3);
    Four(l0, l1, l2, l3);
  }

  /** A plan without a `path`: "no paths defined", and nothing stored. */
  lemma ReadNoPath(fs: FileSystem, v: Variant, depth: nat)
    ensures Ready(fs, v, depth, Start([], SplitLines(NoPathText)))
    ensures Run(fs, v, depth, Start([], SplitLines(NoPathText))).plans == []
    ensures Run(fs, v, depth, Start([], SplitLines(NoPathText))).err == Some(NoPaths)
    ensures Message(NoPaths) == "no paths defined"
  {
    NoPathSplit();
    EmptyLine();
    OpenLine();
    OpenRole("plan buh {");
    LatestLine();
    LatestRole("keep latest 10");
    CloseLine();
    CloseRole("}");
    NoPathShape(fs, v, depth, NoPathLines[0], NoPathLines[1], NoPathLines[2], NoPathLines[3]);
    Messages();
  }

  lemma LatestShape(fs: FileSystem, v: Variant, depth: nat, l0: string, l1: string, l2: string,
                    l3: string, l4: string, l5: string)
    requires Tokens(l0) == [] && Tokens(l1) == [] && Opens(l2, "buh")
    requires AddsPath(l3, "/buh") && SetsLatest(l4, 10) && Closes(l5)
    ensures Ready(fs, v, depth, Start([], [l0, l1, l2, l3, l4, l5]))
    ensures Run(fs, v, depth, Start([], [l0, l1, l2, l3, l4, l5])).plans == [Plan("buh", ["/buh"], 10, [])]
    ensures Run(fs, v, depth, Start([], [l0, l1, l2, l3, l4, l5])).err == None
  {
    BlankPair(l0, l1);
    LatestBody(l3, l4);
    OneBlock(fs, v, depth, [l0, l1], l2, [l3, l4], l5);
    Six(l0, l1, l2, l3, l4, l5);
  }

  /** A commented plan with a path and `keep latest 10`. */
  lemma ReadLatest(fs: FileSystem, v: Variant, depth: nat)
    ensures Ready(fs, v, depth, Start([], SplitLines(LatestText)))
    ensures Run(fs, v, depth, Start([], SplitLines(LatestText))).plans == [Plan("buh", ["/buh"], 10, [])]
    ensures Run(fs, v, depth, Start([], SplitLines(LatestText))).err == None
  {
    LatestSplit();
    EmptyLine();
    TestingLine();
    OpenLine();
    OpenRole("plan buh {");
    PathLine();
    PathRole("path /buh", "/buh");
    LatestLine();
    LatestRole("keep latest 10");
    CloseLine();
    CloseRole("}");
    var ls := LatestLines;
    LatestShape(fs, v, depth, ls[0], ls[1], ls[2], ls[3], ls[4], ls[5]);
  }

  lemma PeriodShape(fs: FileSystem, v: Variant, depth: nat, l0: string, l1: string, l2: string,
                    l3: string, l4: string, l5: string, l6: string)
    requires Tokens(l0) == [] && Tokens(l1) == [] && Opens(l2, "buh")
    requires AddsPath(l3, "/buh") && AddsPeriod(l4, Period(Day, 30 * Day)) && SetsLatest(l5, 10) && Closes(l6)
    ensures Ready(fs, v, depth, Start([], [l0, l1, l2, l3, l4, l5, l6]))
    ensures Run(fs, v, depth, Start([], [l0, l1, l2, l3, l4, l5, l6])).plans
         == [Plan("buh", ["/buh"], 10, [Period(Day, 30 * Day)])]
    ensures Run(fs, v, depth, Start([], [l0, l1, l2, l3, l4, l5, l6])).err == None
  {
    BlankPair(l0, l1);
    PeriodBody(l3, l4, l5);
    OneBlock(fs, v, depth, [l0, l1], l2, [l3, l4, l5], l6);
    SevenLines(l0, l1, l2, l3, l4, l5, l6);
  }

  /** The same plan with one period, daily snapshots kept for 30 days. */
  lemma ReadPeriod(fs: FileSystem, v: Variant, depth: nat)
    ensures Ready(fs, v, depth, Start([], SplitLines(PeriodText)))
    ensures Run(fs, v, depth, Start([], SplitLines(PeriodText))).plans
         == [Plan("buh", ["/buh"], 10, [Period(Day, 30 * Day)])]
    ensures Run(fs, v, depth, Start([], SplitLines(PeriodText))).err == None
  {
    PeriodSplit();
    EmptyLine();
    TestingLine();
    OpenLine();
    OpenRole("plan buh {");
    PathLine();
    PathRole("path /buh", "/buh");
    DayLine();
    DayRole("keep 1d for 30d");
    LatestLine();
    LatestRole("keep latest 10");
    CloseLine();
    CloseRole("}");
    var ls := PeriodLines;
    PeriodShape(fs, v, depth, ls[0], ls[1], ls[2], ls[3], ls[4], ls[5], ls[6]);
  }

  lemma SpacingShape(fs: FileSystem, v: Variant, depth: nat, l0: string, l1: string, l2: string,
                     l3: string, l4: string, l5: string, l6: string, l7: string, l8: string, l9: string)
    requires Tokens(l0) == [] && Opens(l1, "buh")
    requires Tokens(l2) == [] && AddsPath(l3, "/buh") && AddsPeriod(l4, Period(Day, 30 * Day))
    requires Tokens(l5) == [] && Tokens(l6) == []
    requires AddsPeriod(l7, Period(Hour, Day)) && SetsLatest(l8, 10) && Closes(l9)
    ensures Ready(fs, v, depth, Start([], [l0, l1, l2, l3, l4, l5, l6, l7, l8, l9]))
    ensures Run(fs, v, depth, Start([], [l0, l1, l2, l3, l4, l5, l6, l7, l8, l9])).plans
         == [Plan("buh", ["/buh"], 10, [Period(Day, 30 * Day), Period(Hour, Day)])]
    ensures Run(fs, v, depth, Start([], [l0, l1, l2, l3, l4, l5, l6, l7, l8, l9])).err == None
  {
    BlankOne(l0);
    SpacingBody(l2, l3, l4, l5, l6, l7, l8);
    OneBlock(fs, v, depth, [l0], l1, [l2, l3, l4, l5, l6, l7, l8], l9);
    TenLines(l0, l1, l2, l3, l4, l5, l6, l7, l8, l9);
  }

  /** Blank lines, comments, indentation and runs of spaces inside a block
      change nothing: two periods, in the order of their lines. */
  lemma ReadSpacing(fs: FileSystem, v: Variant, depth: nat)
    ensures Ready(fs, v, depth, Start([], SplitLines(SpacingText)))
    ensures Run(fs, v, depth, Start([], SplitLines(SpacingText))).plans
         == [Plan("buh", ["/buh"], 10, [Period(Day, 30 * Day), Period(Hour, Day)])]
    ensures Run(fs, v, depth, Start([], SplitLines(SpacingText))).err == None
  {
    SpacingSplit();
    EmptyLine();
    OpenLine();
    OpenRole("plan buh {");
    PathLine();
    PathRole("path /buh", "/buh");
    WideDayLine();
    DayRole("keep 1d   for 30d");
    TabCommentLine();
    CommentedHourLine();
    HourRole("\tkeep 1h for 1d // A comment!");
    LatestLine();
    LatestRole("keep latest 10");
    IndentedCloseLine();
    CloseRole("    }");
    var ls := SpacingLines;
    SpacingShape(fs, v, depth, ls[0], ls[1], ls[2], ls[3], ls[4], ls[5], ls[6], ls[7], ls[8], ls[9]);
  }

  lemma TwoPathShape(fs: FileSystem, v: Variant, depth: nat, l0: string, l1: string, l2: string,
                     l3: string, l4: string, l5: string, l6: string)
    requires Tokens(l0) == [] && Opens(l1, "buh")
    requires AddsPath(l2, "/buh") && AddsPath(l3, "/buh/2")
    requires AddsPeriod(l4, Period(Day, 30 * Day)) && AddsPeriod(l5, Period(Hour, Day)) && Closes(l6)
    ensures Ready(fs, v, depth, Start([], [l0, l1, l2, l3, l4, l5, l6]))
    ensures Run(fs, v, depth, Start([], [l0, l1, l2, l3, l4, l5, l6])).plans
         == [Plan("buh", ["/buh", "/buh/2"], 1, [Period(Day, 30 * Day), Period(Hour, Day)])]
    ensures Run(fs, v, depth, Start([], [l0, l1, l2, l3, l4, l5, l6])).err == None
  {
    BlankOne(l0);
    TwoPathBody(l2, l3, l4, l5);
    OneBlock(fs, v, depth, [l0], l1, [l2, l3, l4, l5], l6);
    SevenOneBlank(l0, l1, l2, l3, l4, l5, l6);
  }

  /** Two paths, in order, and `Latest` left at 1 when no `keep latest`
      line is given. */
  lemma ReadTwoPaths(fs: FileSystem, v: Variant, depth: nat)
    ensures Ready(fs, v, depth, Start([], SplitLines(TwoPathText)))
    ensures Run(fs, v, depth, Start([], SplitLines(TwoPathText))).plans
         == [Plan("buh", ["/buh", "/buh/2"], 1, [Period(Day, 30 * Day), Period(Hour, Day)])]
    ensures Run(fs, v, depth, Start([], SplitLines(TwoPathText))).err == None
  {
    TwoPathSplit();
    EmptyLine();
    OpenLine();
    OpenRole("plan buh {");
    PathLine();
    PathRole("path /buh", "/buh");
    SecondPathLine();
    PathRole("path /buh/2", "/buh/2");
    DayLine();
    DayRole("keep 1d for 30d");
    HourLine();
    HourRole("keep 1h for 1d");
    CloseLine();
    CloseRole("}");
    var ls := TwoPathLines;
    TwoPathShape(fs, v, depth, ls[0], ls[1], ls[2], ls[3], ls[4], ls[5], ls[6]);
  }
}
