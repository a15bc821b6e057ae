/** The parts of Go's `strings`, `unicode` and `bufio` packages that the
    configuration reader and the snapshot-list reader rely on, written over
    Dafny strings (sequences of Unicode scalar values). */
module Strings {

  /** Go's `unicode.IsSpace`: the Latin-1 spaces plus the other code points
      with the Unicode White_Space property. */
  predicate IsSpace(c: char)
  {
    c == '\t' || c == '\n' || c == '\U{000B}' || c == '\U{000C}' || c == '\r' || c == ' '
    || c == '\U{0085}' || c == '\U{00A0}' || c == '\U{1680}'
    || ('\U{2000}' <= c <= '\U{200A}')
    || c == '\U{2028}' || c == '\U{2029}' || c == '\U{202F}' || c == '\U{205F}' || c == '\U{3000}'
  }

  predicate AllSpace(s: string)
  {
    forall i :: 0 <= i < |s| ==> IsSpace(s[i])
  }

  predicate NoSpace(s: string)
  {
    forall i :: 0 <= i < |s| ==> !IsSpace(s[i])
  }

  /** `s` with its leading white space removed. */
  function TrimLeft(s: string): (r: string)
    ensures |r| <= |s|
    ensures r != [] ==> !IsSpace(r[0])
    decreases |s|
  {
    if s != [] && IsSpace(s[0]) then TrimLeft(s[1..]) else s
  }

  /** What `TrimLeft` removes is white space, and what it keeps is a suffix. */
  lemma {:induction false} TrimLeftSplit(s: string)
    ensures TrimLeft(s) == s[|s| - |TrimLeft(s)|..]
    ensures AllSpace(s[..|s| - |TrimLeft(s)|])
    decreases |s|
  {
    if s != [] && IsSpace(s[0]) {
      TrimLeftSplit(s[1..]);
      assert s[..|s| - |TrimLeft(s)|] == [s[0]] + s[1..][..|s| - 1 - |TrimLeft(s)|];
    }
  }

  /** `s` with its trailing white space removed. */
  function TrimRight(s: string): (r: string)
    ensures |r| <= |s|
    ensures r != [] ==> !IsSpace(r[|r| - 1])
    decreases |s|
  {
    if s != [] && IsSpace(s[|s| - 1]) then TrimRight(s[..|s| - 1]) else s
  }

  /** What `TrimRight` removes is white space, and what it keeps is a prefix. */
  lemma {:induction false} TrimRightSplit(s: string)
    ensures TrimRight(s) == s[..|TrimRight(s)|]
    ensures AllSpace(s[|TrimRight(s)|..])
    decreases |s|
  {
    if s != [] && IsSpace(s[|s| - 1]) {
      TrimRightSplit(s[..|s| - 1]);
      assert s[|TrimRight(s)|..] == s[..|s| - 1][|TrimRight(s)|..] + [s[|s| - 1]];
    }
  }

  /** `TrimLeft` empties exactly the strings made of white space. */
  lemma TrimLeftEmpty(s: string)
    ensures TrimLeft(s) == [] <==> AllSpace(s)
  {
    TrimLeftSplit(s);
    if TrimLeft(s) == [] {
      assert s[..|s|] == s;
    }
  }

  /** Go's `strings.TrimSpace`: the infix of `s` left after removing the
      leading and the trailing white space. */
  function TrimSpace(s: string): (r: string)
    ensures r != [] ==> !IsSpace(r[0]) && !IsSpace(r[|r| - 1])
  {
    TrimRightSplit(TrimLeft(s));
    TrimRight(TrimLeft(s))
  }

  /** Trimming never shortens a string that has no white space at either end. */
  lemma TrimSpaceIdentity(s: string)
    requires s != [] ==> !IsSpace(s[0]) && !IsSpace(s[|s| - 1])
    ensures TrimSpace(s) == s
  {
  }

  /** The longest prefix of `s` that holds no white space. */
  function Word(s: string): (w: string)
    ensures |w| <= |s| && w == s[..|w|] && NoSpace(w)
    ensures |w| < |s| ==> IsSpace(s[|w|])
    decreases |s|
  {
    if s == [] || IsSpace(s[0]) then [] else [s[0]] + Word(s[1..])
  }

  /** Go's `strings.Fields`: the maximal runs of non-space characters, in order.
      It is empty exactly when `s` is all white space. */
  function Fields(s: string): (r: seq<string>)
    ensures forall k :: 0 <= k < |r| ==> r[k] != [] && NoSpace(r[k])
    ensures r == [] <==> AllSpace(s)
    decreases |s|
  {
    var t := TrimLeft(s);
    TrimLeftEmpty(s);
    if t == [] then []
    else
      var w := Word(t);
      [w] + Fields(t[|w|..])
  }

  lemma {:induction false} WordOfNoSpace(w: string, rest: string)
    requires NoSpace(w)
    requires rest != [] ==> IsSpace(rest[0])
    ensures Word(w + rest) == w
    decreases |w|
  {
    if w != [] {
      assert (w + rest)[1..] == w[1..] + rest;
      WordOfNoSpace(w[1..], rest);
    }
  }

  /** A word with no white space in it is its own single field. */
  lemma FieldsOfWord(w: string)
    requires w != [] && NoSpace(w)
    ensures Fields(w) == [w]
  {
    WordOfNoSpace(w, []);
    assert w + [] == w;
    FieldsStep(w);
    assert w[|w|..] == [];
  }

  /** One step of `Fields` on a string whose trimmed form is not empty. */
  lemma FieldsStep(s: string)
    requires TrimLeft(s) != []
    ensures Fields(s) == [Word(TrimLeft(s))] + Fields(TrimLeft(s)[|Word(TrimLeft(s))|..])
  {
  }

  /** A first word followed by white space becomes the first field. */
  lemma FieldsOfWordThen(a: string, tail: string)
    requires a != [] && NoSpace(a) && tail != [] && IsSpace(tail[0])
    ensures Fields(a + tail) == [a] + Fields(tail)
  {
    var s := a + tail;
    assert TrimLeft(s) == s;
    WordOfNoSpace(a, tail);
    assert s[|a|..] == tail;
    FieldsStep(s);
  }

  /** A word after white space is the only field. */
  lemma FieldsOfSpacedWord(sep: string, b: string)
    requires b != [] && NoSpace(b) && AllSpace(sep)
    ensures Fields(sep + b) == [b]
  {
    TrimLeftOfSpaces(sep, b);
    FieldsStep(sep + b);
    FieldsOfWord(b);
  }

  /** Two words separated by white space split back into those two words. */
  lemma FieldsOfPair(a: string, sep: string, b: string)
    requires a != [] && NoSpace(a) && b != [] && NoSpace(b)
    requires sep != [] && AllSpace(sep)
    ensures Fields(a + sep + b) == [a, b]
  {
    var tail := sep + b;
    assert a + sep + b == a + tail;
    FieldsOfWordThen(a, tail);
    FieldsOfSpacedWord(sep, b);
  }

  lemma {:induction false} TrimLeftOfSpaces(sep: string, b: string)
    requires AllSpace(sep)
    requires b != [] ==> !IsSpace(b[0])
    ensures TrimLeft(sep + b) == b
    decreases |sep|
  {
    if sep != [] {
      assert (sep + b)[1..] == sep[1..] + b;
      TrimLeftOfSpaces(sep[1..], b);
    } else {
      assert sep + b == b;
    }
  }

  /** `pat` occurs in `s` starting at position `j`. */
  predicate OccursAt(s: string, pat: string, j: nat)
  {
    j + |pat| <= |s| && s[j..j + |pat|] == pat
  }

  /** Go's `strings.Index` (and `strings.IndexRune` for a one-character
      pattern): the first position where `pat` occurs in `s`, or -1. */
  function IndexOf(s: string, pat: string): (i: int)
    ensures -1 <= i <= |s|
    ensures i >= 0 ==> OccursAt(s, pat, i)
    ensures forall j: nat :: j < |s| + 1 && (i < 0 || j < i) ==> !OccursAt(s, pat, j)
    decreases |s|
  {
    if |s| < |pat| then -1
    else if s[..|pat|] == pat then 0
    else
      var k := IndexOf(s[1..], pat);
      assert forall j: nat :: 1 <= j && OccursAt(s, pat, j) ==> OccursAt(s[1..], pat, j - 1);
      if k < 0 then -1 else k + 1
  }

  /** Go's `strings.Join`. */
  function Join(parts: seq<string>, sep: string): string
    decreases |parts|
  {
    if parts == [] then []
    else if |parts| == 1 then parts[0]
    else parts[0] + sep + Join(parts[1..], sep)
  }

  /** Go's `strings.HasPrefix`. */
  predicate HasPrefix(s: string, prefix: string)
  {
    |prefix| <= |s| && s[..|prefix|] == prefix
  }

  /** Go's `strings.Count(s, string(c))`. */
  function CountChar(s: string, c: char): nat
    decreases |s|
  {
    if s == [] then 0 else (if s[0] == c then 1 else 0) + CountChar(s[1..], c)
  }

  function DropCR(line: string): string
  {
    if line != [] && line[|line| - 1] == '\r' then line[..|line| - 1] else line
  }

  /** The lines that a `bufio.Scanner` with the default `ScanLines` split
      function yields from `text`: the pieces between newline characters, each
      with one trailing carriage return dropped, and no empty piece after a
      final newline. */
  function SplitLines(text: string): (lines: seq<string>)
    decreases |text|
  {
    if text == [] then []
    else
      var i := IndexOf(text, "\n");
      if i < 0 then [DropCR(text)]
      else [DropCR(text[..i])] + SplitLines(text[i + 1..])
  }

  /** The number of bytes the UTF-8 encoding of `c` takes. */
  function Utf8Width(c: char): nat
  {
    if c < '\U{0080}' then 1 else if c < '\U{0800}' then 2 else if c < '\U{10000}' then 3 else 4
  }

  /** Go's `len` of a string: the length of its UTF-8 encoding in bytes. */
  function Utf8Length(s: string): (n: nat)
    ensures n >= |s|
    decreases |s|
  {
    if s == [] then 0 else Utf8Width(s[0]) + Utf8Length(s[1..])
  }

  /** Go's `strings.Split(s, string(c))`: the pieces between the occurrences
      of `c`, one more than there are occurrences. */
  function Split(s: string, c: char): (parts: seq<string>)
    ensures |parts| == CountChar(s, c) + 1
    ensures forall k :: 0 <= k < |parts| ==> c !in parts[k]
    decreases |s|
  {
    if s == [] then [[]]
    else
      var rest := Split(s[1..], c);
      if s[0] == c then [[]] + rest else [[s[0]] + rest[0]] + rest[1..]
  }

  /** Joining the pieces with the separator gives back the string. */
  lemma {:induction false} SplitJoin(s: string, c: char)
    ensures Join(Split(s, c), [c]) == s
    decreases |s|
  {
    if s != [] {
      var rest := Split(s[1..], c);
      SplitJoin(s[1..], c);
      if s[0] != c && |rest| > 1 {
        assert Split(s, c)[1..] == rest[1..];
        assert Join(rest, [c]) == rest[0] + [c] + Join(rest[1..], [c]);
      }
    }
  }

  /** A string with exactly one separator splits into the text before it
      and the text after it. */
  lemma {:induction false} SplitAround(a: string, b: string, c: char)
    requires c !in a && c !in b
    ensures Split(a + [c] + b, c) == [a, b]
    decreases |a|
  {
    if a == [] {
      assert a + [c] + b == [c] + b;
      assert ([c] + b)[1..] == b;
      SplitNone(b, c);
    } else {
      assert (a + [c] + b)[1..] == a[1..] + [c] + b;
      SplitAround(a[1..], b, c);
      assert [a[0]] + a[1..] == a;
    }
  }

  lemma {:induction false} SplitNone(s: string, c: char)
    requires c !in s
    ensures Split(s, c) == [s]
    decreases |s|
  {
    if s != [] {
      assert c !in s[1..];
      SplitNone(s[1..], c);
      assert [s[0]] + s[1..] == s;
    }
  }

  /** Text made of the lines, each ended by a newline, as `zfs list` prints
      them. */
  function Unlines(lines: seq<string>): string
    decreases |lines|
  {
    if lines == [] then [] else lines[0] + "\n" + Unlines(lines[1..])
  }

  /** A line that a line scanner hands back unchanged. */
  predicate PlainLine(line: string)
  {
    '\n' !in line && (line != [] ==> line[|line| - 1] != '\r')
  }

  /** The first newline of a line followed by a newline is the one after it. */
  lemma NewlineAfter(line: string, rest: string)
    requires '\n' !in line
    ensures IndexOf(line + "\n" + rest, "\n") == |line|
  {
    var text := line + "\n" + rest;
    assert text[|line|..|line| + 1] == "\n";
    forall j: nat | j < |line|
      ensures !OccursAt(text, "\n", j)
    {
      assert text[j..j + 1] == [line[j]];
    }
    assert OccursAt(text, "\n", |line|);
    var i := IndexOf(text, "\n");
    assert !(i < 0 || |line| < i);
  }

  /** A plain line followed by a newline is the first line of the text. */
  lemma SplitFirstLine(line: string, rest: string)
    requires PlainLine(line)
    ensures SplitLines(line + "\n" + rest) == [line] + SplitLines(rest)
  {
    var text := line + "\n" + rest;
    NewlineAfter(line, rest);
    assert text[..|line|] == line && text[|line| + 1..] == rest;
    assert DropCR(line) == line;
  }

  /** A plain line that is not empty is one line of text. */
  lemma SplitOneLine(line: string)
    requires line != [] && PlainLine(line)
    ensures SplitLines(line) == [line]
  {
    assert forall j: nat :: !OccursAt(line, "\n", j) by {
      forall j: nat | j + 1 <= |line|
        ensures !OccursAt(line, "\n", j)
      {
        assert line[j..j + 1][0] == line[j];
      }
    }
    assert DropCR(line) == line;
  }

  /** Splitting newline-ended lines gives the lines back. */
  lemma {:induction false} SplitLinesUnlines(lines: seq<string>)
    requires forall k :: 0 <= k < |lines| ==> PlainLine(lines[k])
    ensures SplitLines(Unlines(lines)) == lines
    decreases |lines|
  {
    if lines != [] {
      SplitFirstLine(lines[0], Unlines(lines[1..]));
      SplitLinesUnlines(lines[1..]);
    }
  }

  /** Splitting lines joined by newlines gives the lines back, when the last
      one is not empty. */
  lemma {:induction false} SplitLinesJoin(lines: seq<string>)
    requires lines != [] && lines[|lines| - 1] != []
    requires forall k :: 0 <= k < |lines| ==> PlainLine(lines[k])
    ensures SplitLines(Join(lines, "\n")) == lines
    decreases |lines|
  {
    if |lines| == 1 {
      assert Join(lines, "\n") == lines[0];
      SplitOneLine(lines[0]);
    } else {
      assert Join(lines, "\n") == lines[0] + "\n" + Join(lines[1..], "\n");
      SplitFirstLine(lines[0], Join(lines[1..], "\n"));
      SplitLinesJoin(lines[1..]);
    }
  }
}
