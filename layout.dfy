/** The shape of a configuration line as `trim` and `strings.Fields` see it
    (`conf/Conf.go`): white space, words separated by white space, white
    space, and an optional comment. The tokens of such a line are its words. */
module Layout {
  import opened Strings
  import opened Scanner

  /** No `#` in `s`. */
  predicate NoHash(s: string)
  {
    forall i :: 0 <= i < |s| ==> s[i] != '#'
  }

  /** No `//` in `s`. */
  predicate NoSlashes(s: string)
  {
    forall i :: 0 <= i < |s| - 1 ==> !(s[i] == '/' && s[i + 1] == '/')
  }

  /** A word of a configuration line: not empty, no white space and no
      comment marker. */
  predicate IsWord(w: string)
  {
    w != [] && NoSpace(w) && NoHash(w) && NoSlashes(w)
  }

  predicate Words(ws: seq<string>)
  {
    forall k :: 0 <= k < |ws| ==> IsWord(ws[k])
  }

  /** The runs of white space between words. */
  predicate Gaps(gaps: seq<string>)
  {
    forall k :: 0 <= k < |gaps| ==> gaps[k] != [] && AllSpace(gaps[k])
  }

  /** Nothing, or a comment: `#` or `//` and anything after it. */
  predicate IsComment(c: string)
  {
    c == [] || c[0] == '#' || (|c| >= 2 && c[0] == '/' && c[1] == '/')
  }

  /** The words `ws` with the white space `gaps[k]` between `ws[k]` and
      `ws[k + 1]`. */
  function Spaced(ws: seq<string>, gaps: seq<string>): (s: string)
    requires |ws| >= 1 && |gaps| == |ws| - 1
    decreases |ws|
  {
    if |ws| == 1 then ws[0] else ws[0] + gaps[0] + Spaced(ws[1..], gaps[1..])
  }

  /** A spaced line starts with its first word and ends with its last. */
  lemma {:induction false} SpacedEnds(ws: seq<string>, gaps: seq<string>)
    requires |ws| >= 1 && |gaps| == |ws| - 1 && Words(ws)
    ensures Spaced(ws, gaps) != []
    ensures Spaced(ws, gaps)[0] == ws[0][0]
    ensures Spaced(ws, gaps)[|Spaced(ws, gaps)| - 1] == ws[|ws| - 1][|ws[|ws| - 1]| - 1]
    decreases |ws|
  {
    if |ws| > 1 {
      SpacedEnds(ws[1..], gaps[1..]);
      var r := Spaced(ws[1..], gaps[1..]);
      assert Spaced(ws, gaps) == ws[0] + (gaps[0] + r);
    }
  }

  /** White space after white space is dropped by `Fields`. */
  lemma FieldsAfterSpaces(sep: string, b: string)
    requires AllSpace(sep) && b != [] && !IsSpace(b[0])
    ensures Fields(sep + b) == Fields(b)
  {
    TrimLeftOfSpaces(sep, b);
    TrimLeftOfSpaces([], b);
    assert [] + b == b;
  }

  /** The fields of a spaced line are its words. */
  lemma {:induction false} FieldsOfSpaced(ws: seq<string>, gaps: seq<string>)
    requires |ws| >= 1 && |gaps| == |ws| - 1 && Words(ws) && Gaps(gaps)
    ensures Fields(Spaced(ws, gaps)) == ws
    decreases |ws|
  {
    if |ws| == 1 {
      FieldsOfWord(ws[0]);
    } else {
      var r := Spaced(ws[1..], gaps[1..]);
      assert Fields(gaps[0] + r) == ws[1..] by {
        SpacedEnds(ws[1..], gaps[1..]);
        FieldsAfterSpaces(gaps[0], r);
        FieldsOfSpaced(ws[1..], gaps[1..]);
      }
      assert Fields(Spaced(ws, gaps)) == [ws[0]] + Fields(gaps[0] + r) by {
        assert Spaced(ws, gaps) == ws[0] + (gaps[0] + r);
        FieldsOfWordThen(ws[0], gaps[0] + r);
      }
      assert ws == [ws[0]] + ws[1..];
    }
  }

  lemma SpacesClean(g: string)
    requires AllSpace(g)
    ensures NoHash(g) && NoSlashes(g)
  {
  }

  lemma NoHashConcat(a: string, b: string)
    requires NoHash(a) && NoHash(b)
    ensures NoHash(a + b)
  {
    forall i | 0 <= i < |a + b|
      ensures (a + b)[i] != '#'
    {
      if i >= |a| {
        assert (a + b)[i] == b[i - |a|];
      }
    }
  }

  lemma NoSlashesConcat(a: string, b: string)
    requires NoSlashes(a) && NoSlashes(b)
    requires a == [] || b == [] || a[|a| - 1] != '/' || b[0] != '/'
    ensures NoSlashes(a + b)
  {
    forall i | 0 <= i < |a + b| - 1
      ensures !((a + b)[i] == '/' && (a + b)[i + 1] == '/')
    {
      if i >= |a| {
        assert (a + b)[i] == b[i - |a|] && (a + b)[i + 1] == b[i + 1 - |a|];
      } else if i == |a| - 1 {
        assert (a + b)[i + 1] == b[0];
      }
    }
  }

  /** A spaced line holds no comment marker. */
  lemma {:induction false} SpacedClean(ws: seq<string>, gaps: seq<string>)
    requires |ws| >= 1 && |gaps| == |ws| - 1 && Words(ws) && Gaps(gaps)
    ensures NoHash(Spaced(ws, gaps)) && NoSlashes(Spaced(ws, gaps))
    decreases |ws|
  {
    if |ws| > 1 {
      var r := Spaced(ws[1..], gaps[1..]);
      SpacedClean(ws[1..], gaps[1..]);
      SpacesClean(gaps[0]);
      NoHashConcat(gaps[0], r);
      NoSlashesConcat(gaps[0], r);
      NoHashConcat(ws[0], gaps[0] + r);
      NoSlashesConcat(ws[0], gaps[0] + r);
      assert Spaced(ws, gaps) == ws[0] + (gaps[0] + r);
    }
  }

  lemma NoHashFree(s: string)
    requires NoHash(s)
    ensures Free(s, "#")
  {
    assert forall j: nat :: OccursAt(s, "#", j) ==> s[j] == '#';
  }

  lemma NoSlashesFree(s: string)
    requires NoSlashes(s)
    ensures Free(s, "//")
  {
    forall j: nat | j + 2 <= |s|
      ensures !OccursAt(s, "//", j)
    {
      assert s[j..j + 2][0] == s[j] && s[j..j + 2][1] == s[j + 1];
    }
  }

  /** A cut never falls inside a prefix that does not hold the pattern. */
  lemma CutAtLength(s: string, pat: string, k: nat)
    requires pat != [] && k + |pat| - 1 <= |s| && Free(s[..k + |pat| - 1], pat)
    ensures |CutAt(s, pat)| >= k
  {
    forall j: nat | j < k
      ensures !OccursAt(s, pat, j)
    {
      SliceOfSlice(s, 0, k + |pat| - 1, j, j + |pat|);
      assert OccursAt(s, pat, j) == OccursAt(s[..k + |pat| - 1], pat, j);
    }
  }

  /** An occurrence with no cut before it is where the cut falls. */
  lemma CutAtHit(s: string, pat: string, k: nat)
    requires pat != [] && OccursAt(s, pat, k) && |CutAt(s, pat)| >= k
    ensures CutAt(s, pat) == s[..k]
  {
  }

  /** `trim` cuts a comment off a line that has no comment marker before it. */
  lemma CutComment(p: string, c: string)
    requires NoHash(p) && NoSlashes(p) && IsComment(c)
    requires c != [] && p != [] ==> p[|p| - 1] != '/'
    ensures CutAt(CutAt(p + c, "#"), "//") == p
  {
    var line := p + c;
    NoHashFree(p);
    NoSlashesFree(p);
    if c == [] {
      assert line == p;
      CutAtFree(p, "#");
      CutAtFree(p, "//");
    } else if c[0] == '#' {
      assert line[..|p|] == p;
      assert line[|p|..|p| + 1] == "#";
      CutAtLength(line, "#", |p|);
      CutAtHit(line, "#", |p|);
      CutAtFree(p, "//");
    } else {
      var q := p + "//";
      assert line[..|p| + 2] == q;
      assert NoHash(q) by {
        NoHashConcat(p, "//");
      }
      NoHashFree(q);
      CutAtLength(line, "#", |p| + 2);
      var a := CutAt(line, "#");
      assert a[..|p| + 2] == q;
      assert a[..|p| + 1] == p + "/";
      assert a[|p|..|p| + 2] == "//";
      assert NoSlashes(p + "/") by {
        NoSlashesConcat(p, "/");
      }
      NoSlashesFree(p + "/");
      CutAtLength(a, "//", |p|);
      CutAtHit(a, "//", |p|);
      assert a[..|p|] == p;
    }
  }

  lemma {:induction false} TrimRightOfSpaces(a: string, sep: string)
    requires AllSpace(sep) && (a != [] ==> !IsSpace(a[|a| - 1]))
    ensures TrimRight(a + sep) == a
    decreases |sep|
  {
    if sep != [] {
      var s := a + sep;
      assert s[..|s| - 1] == a + sep[..|sep| - 1];
      TrimRightOfSpaces(a, sep[..|sep| - 1]);
    } else {
      assert a + sep == a;
    }
  }

  /** Padding a spaced line with white space adds no comment marker. */
  lemma PaddedClean(lead: string, ws: seq<string>, gaps: seq<string>, trail: string)
    requires AllSpace(lead) && AllSpace(trail)
    requires |ws| >= 1 && |gaps| == |ws| - 1 && Words(ws) && Gaps(gaps)
    ensures NoHash(lead + Spaced(ws, gaps) + trail) && NoSlashes(lead + Spaced(ws, gaps) + trail)
  {
    var s := Spaced(ws, gaps);
    SpacedClean(ws, gaps);
    SpacesClean(lead);
    SpacesClean(trail);
    NoHashConcat(lead, s);
    NoSlashesConcat(lead, s);
    NoHashConcat(lead + s, trail);
    NoSlashesConcat(lead + s, trail);
  }

  /** `strings.TrimSpace` removes exactly the padding of a spaced line. */
  lemma TrimSpaceOfPadded(lead: string, s: string, trail: string)
    requires AllSpace(lead) && AllSpace(trail) && s != [] && !IsSpace(s[0]) && !IsSpace(s[|s| - 1])
    ensures TrimSpace(lead + s + trail) == s
  {
    assert lead + s + trail == lead + (s + trail);
    TrimLeftOfSpaces(lead, s + trail);
    TrimRightOfSpaces(s, trail);
  }

  /** `trim` keeps the words of such a line and the white space between
      them. */
  lemma TrimOfLine(lead: string, ws: seq<string>, gaps: seq<string>, trail: string, comment: string)
    requires AllSpace(lead) && AllSpace(trail) && IsComment(comment)
    requires |ws| >= 1 && |gaps| == |ws| - 1 && Words(ws) && Gaps(gaps)
    requires comment != [] ==> trail != []
    ensures Trim(lead + Spaced(ws, gaps) + trail + comment) == Spaced(ws, gaps)
  {
    var s := Spaced(ws, gaps);
    var p := lead + s + trail;
    SpacedEnds(ws, gaps);
    PaddedClean(lead, ws, gaps, trail);
    assert comment != [] && p != [] ==> p[|p| - 1] != '/' by {
      if trail != [] {
        assert p[|p| - 1] == trail[|trail| - 1];
      }
    }
    CutComment(p, comment);
    TrimSpaceOfPadded(lead, s, trail);
  }

  /** The tokens of a line made of white space, words separated by white
      space, white space and a comment are the words. */
  lemma TokensOfLine(lead: string, ws: seq<string>, gaps: seq<string>, trail: string, comment: string)
    requires AllSpace(lead) && AllSpace(trail) && IsComment(comment)
    requires |ws| >= 1 && |gaps| == |ws| - 1 && Words(ws) && Gaps(gaps)
    requires comment != [] ==> trail != []
    ensures Tokens(lead + Spaced(ws, gaps) + trail + comment) == ws
  {
    TrimOfLine(lead, ws, gaps, trail, comment);
    FieldsOfSpaced(ws, gaps);
  }

  /** A line of white space and a comment has no tokens. */
  lemma TokensOfBlank(lead: string, comment: string)
    requires AllSpace(lead) && IsComment(comment)
    ensures Tokens(lead + comment) == []
  {
    SpacesClean(lead);
    CutComment(lead, comment);
    TrimLeftEmpty(lead);
  }
}
