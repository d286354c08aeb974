/** Texts as lines that keep their ends, and places in a text as editors name them. */
module Lines {
  import opened Basics

  predicate Ended(line: string) {
    line != "" && line[|line| - 1] == '\n'
  }

  /** The lines of a text, each with its newline; the last may have none. */
  function SplitLines(s: string): seq<string>
    decreases |s|
  {
    if s == "" then []
    else
      var n := FirstAt(s, '\n');
      if n == |s| then [s] else [s[..n + 1]] + SplitLines(s[n + 1..])
  }

  function Concat(lines: seq<string>): string {
    if lines == [] then "" else lines[0] + Concat(lines[1..])
  }

  /** One line: no newline but at its end. */
  predicate OneLine(line: string) {
    forall i :: 0 <= i < |line| - 1 ==> line[i] != '\n'
  }

  /** Lines that follow one another: each but the last ended. */
  predicate Follow(lines: seq<string>) {
    && (forall i :: 0 <= i < |lines| ==> OneLine(lines[i]))
    && (forall i :: 0 <= i < |lines| - 1 ==> Ended(lines[i]))
  }

  /** Lines as a text is cut into: none empty. */
  predicate AreLines(lines: seq<string>) {
    Follow(lines) && forall i :: 0 <= i < |lines| ==> lines[i] != ""
  }

  predicate AllEnded(lines: seq<string>) {
    forall i :: 0 <= i < |lines| ==> OneLine(lines[i]) && Ended(lines[i])
  }

  lemma {:induction false} ConcatJoin(a: seq<string>, b: seq<string>)
    ensures Concat(a + b) == Concat(a) + Concat(b)
  {
    if a == [] {
      assert a + b == b;
    } else {
      assert (a + b)[1..] == a[1..] + b;
      ConcatJoin(a[1..], b);
    }
  }

  lemma ConcatNone()
    ensures Concat([]) == ""
  {
  }

  lemma ConcatOne(line: string)
    ensures Concat([line]) == line
  {
    assert [line][1..] == [];
  }

  lemma ConcatFirst(line: string, tail: seq<string>, rest: string)
    ensures Concat([line] + tail) == line + Concat(tail)
    ensures Concat([line] + tail) + rest == line + (Concat(tail) + rest)
  {
    ConcatJoin([line], tail);
    ConcatOne(line);
    hide Concat;
  }

  lemma GroupText(a: string, b: string, c: string)
    ensures a + b + c == a + (b + c)
  {
  }

  lemma LinesCons(line: string, rest: seq<string>)
    requires OneLine(line) && Ended(line)
    ensures Follow(rest) ==> Follow([line] + rest)
    ensures AreLines(rest) ==> AreLines([line] + rest)
    ensures Concat([line] + rest) == line + Concat(rest)
  {
    hide OneLine;
    assert ([line] + rest)[1..] == rest;
    forall i | 0 <= i < |rest| ensures ([line] + rest)[i + 1] == rest[i] {
    }
  }

  lemma {:induction false} FirstLine(s: string)
    requires FirstAt(s, '\n') < |s|
    ensures var n := FirstAt(s, '\n'); OneLine(s[..n + 1]) && Ended(s[..n + 1]) && s == s[..n + 1] + s[n + 1..]
  {
    var n := FirstAt(s, '\n');
    hide FirstAt;
    assert forall i :: 0 <= i < n ==> s[..n + 1][i] == s[i];
  }

  lemma LastLine(s: string)
    requires s != "" && FirstAt(s, '\n') == |s|
    ensures AreLines([s]) && Concat([s]) == s
  {
    assert [s][1..] == [];
  }

  lemma {:induction false} SplitLinesAre(s: string)
    ensures AreLines(SplitLines(s)) && Concat(SplitLines(s)) == s
    decreases |s|
  {
    hide AreLines, OneLine, Ended, Concat, FirstAt;
    if s == "" {
      assert AreLines([]) && Concat([]) == "" by {
        NoLines();
      }
    } else {
      var n := FirstAt(s, '\n');
      if n < |s| {
        FirstLine(s);
        SplitLinesAre(s[n + 1..]);
        LinesCons(s[..n + 1], SplitLines(s[n + 1..]));
      } else {
        LastLine(s);
      }
    }
  }

  lemma NoLines()
    ensures AreLines([]) && Concat([]) == ""
  {
  }

  lemma FirstNewline(line: string, rest: string)
    requires OneLine(line) && Ended(line)
    ensures FirstAt(line + rest, '\n') == |line| - 1
  {
    var n := FirstAt(line + rest, '\n');
    assert (line + rest)[|line| - 1] == '\n';
    assert forall i :: 0 <= i < |line| ==> (line + rest)[i] == line[i];
  }

  lemma NoNewline(line: string)
    requires OneLine(line) && !Ended(line)
    ensures FirstAt(line, '\n') == |line|
  {
  }

  lemma {:induction false} SplitOfCons(line: string, rest: string)
    requires OneLine(line) && Ended(line)
    ensures SplitLines(line + rest) == [line] + SplitLines(rest)
  {
    FirstNewline(line, rest);
    assert (line + rest)[..|line|] == line && (line + rest)[|line|..] == rest;
  }

  lemma OneSplit(line: string)
    requires OneLine(line)
    ensures SplitLines(line) == if line == "" then [] else [line]
  {
    if line != "" {
      var n := FirstAt(line, '\n');
      if n < |line| {
        assert n == |line| - 1;
        assert line[..n + 1] == line && line[n + 1..] == "";
      }
    }
  }

  // ---------- Places in a text ----------

  /** A place as the language server protocol names it: a line, and UTF-16 units into it. */
  datatype Position = Position(line: nat, character: nat) {
    predicate Before(p: Position) {
      line < p.line || (line == p.line && character < p.character)
    }
  }

  function Units(c: char): nat {
    if c < '\U{10000}' then 1 else 2
  }

  function Utf16(s: string): nat {
    if s == "" then 0 else Units(s[0]) + Utf16(s[1..])
  }

  /** Where line `n` of a text starts; a line past the last starts at the text's end. */
  function LineStart(text: string, n: nat): (at: nat)
    ensures at <= |text|
    decreases n
  {
    if n == 0 then 0
    else
      var k := FirstAt(text, '\n');
      if k == |text| then |text| else k + 1 + LineStart(text[k + 1..], n - 1)
  }

  /** How many characters `units` reach into the line `s` starts with, at most to its end. */
  function CharAt(s: string, units: nat): (n: nat)
    ensures n <= |s|
  {
    if s == "" || s[0] == '\n' || units < Units(s[0]) then 0 else 1 + CharAt(s[1..], units - Units(s[0]))
  }

  function Offset(text: string, p: Position): (at: nat)
    ensures at <= |text|
  {
    var start := LineStart(text, p.line);
    start + CharAt(text[start..], p.character)
  }

  lemma DropLines(lines: seq<string>, rest: string, n: nat)
    requires n <= |lines|
    ensures |Concat(lines[..n])| <= |Concat(lines)|
    ensures (Concat(lines) + rest)[|Concat(lines[..n])|..] == Concat(lines[n..]) + rest
  {
    hide Concat;
    assert lines == lines[..n] + lines[n..];
    ConcatJoin(lines[..n], lines[n..]);
    DropText(Concat(lines[..n]), Concat(lines[n..]), rest);
  }

  lemma DropText(a: string, b: string, c: string)
    ensures (a + b + c)[|a|..] == b + c
  {
  }

  lemma NextStart(line: string, more: string, n: nat)
    requires OneLine(line) && Ended(line)
    ensures LineStart(line + more, n + 1) == |line| + LineStart(more, n)
  {
    FirstNewline(line, more);
    assert (line + more)[|line|..] == more;
    hide FirstAt, OneLine;
  }

  lemma LastStart(line: string)
    requires OneLine(line) && !Ended(line)
    ensures LineStart(line, 1) == |line|
  {
    NoNewline(line);
    hide FirstAt, OneLine;
  }

  /**
   Line `n` of lines and whatever follows them starts where the lines before it end; the
   line after them all does so where the last is ended or nothing follows.
   */
  lemma {:induction false} LineStartIs(lines: seq<string>, rest: string, n: nat)
    requires AreLines(lines) && n <= |lines|
    requires n == |lines| > 0 ==> Ended(lines[n - 1]) || rest == ""
    ensures LineStart(Concat(lines) + rest, n) == |Concat(lines[..n])|
    decreases |lines|
  {
    hide OneLine, FirstAt, Ended, LineStart, Concat, AreLines;
    if n == 0 {
      assert lines[..0] == [];
      ConcatNone();
      FirstStart(Concat(lines) + rest);
    } else {
      var line, tail := lines[0], lines[1..];
      FirstOfLines(lines);
      ConcatFirst(line, tail, rest);
      assert lines[..n] == [line] + tail[..n - 1];
      ConcatFirst(line, tail[..n - 1], rest);
      if Ended(line) {
        assert n == |lines| && n - 1 > 0 ==> tail[n - 2] == lines[n - 1];
        LineStartIs(tail, rest, n - 1);
        NextStart(line, Concat(tail) + rest, n - 1);
      } else {
        ConcatNone();
        assert line + ("" + "") == line && line + "" == line;
        LastStart(line);
      }
    }
  }

  lemma FirstStart(text: string)
    ensures LineStart(text, 0) == 0
  {
  }

  lemma FirstOfLines(lines: seq<string>)
    requires AreLines(lines) && lines != []
    ensures lines == [lines[0]] + lines[1..] && OneLine(lines[0]) && AreLines(lines[1..])
    ensures !Ended(lines[0]) ==> lines[1..] == []
  {
    hide OneLine, Ended;
  }

  lemma {:induction false} CharAtEnd(line: string, rest: string)
    requires '\n' !in line
    ensures CharAt(line + rest, Utf16(line)) == |line|
  {
    if line != "" {
      assert (line + rest)[0] == line[0] && line[0] in line;
      assert (line + rest)[1..] == line[1..] + rest;
      CharAtEnd(line[1..], rest);
    }
  }

  /** A line's start, as an editor reads it, is where the lines before it end. */
  lemma OffsetOfStart(lines: seq<string>, rest: string, n: nat)
    requires AreLines(lines) && n <= |lines|
    requires n == |lines| > 0 ==> Ended(lines[n - 1]) || rest == ""
    ensures Offset(Concat(lines) + rest, Position(n, 0)) == |Concat(lines[..n])|
  {
    LineStartIs(lines, rest, n);
    DropLines(lines, rest, n);
    hide LineStart, Concat;
  }

  /** The end of a last line that has no newline is where the lines end, whatever follows on it. */
  lemma OffsetOfEnd(lines: seq<string>, rest: string)
    requires AreLines(lines) && lines != [] && !Ended(lines[|lines| - 1])
    ensures var last := lines[|lines| - 1];
            Offset(Concat(lines) + rest, Position(|lines| - 1, Utf16(last))) == |Concat(lines)|
  {
    hide LineStart, Concat, OneLine, Ended, AreLines, CharAt, Utf16;
    var n, last := |lines| - 1, lines[|lines| - 1];
    LineStartIs(lines, rest, n);
    DropLines(lines, rest, n);
    LastOfLines(lines);
    assert lines[n..] == [last];
    ConcatOne(last);
    CharAtEnd(last, rest);
    ConcatJoin(lines[..n], [last]);
  }

  lemma LastOfLines(lines: seq<string>)
    requires AreLines(lines) && lines != [] && !Ended(lines[|lines| - 1])
    ensures var n, last := |lines| - 1, lines[|lines| - 1];
            AllEnded(lines[..n]) && lines == lines[..n] + [last] && '\n' !in last && last != ""
  {
    var n, last := |lines| - 1, lines[|lines| - 1];
    assert OneLine(last);
    assert AllEnded(lines[..n]) by {
      hide OneLine, Ended;
    }
  }

  // ---------- Lines with something after them ----------

  /** The lines of a text that goes on after `lines` with `rest`: on the last of them, when it is not ended. */
  function Continued(lines: seq<string>, rest: string): seq<string> {
    if lines == [] then SplitLines(rest) else lines[..|lines| - 1] + SplitLines(lines[|lines| - 1] + rest)
  }

  lemma {:induction false} SplitContinued(lines: seq<string>, rest: string)
    requires Follow(lines)
    ensures SplitLines(Concat(lines) + rest) == Continued(lines, rest)
    decreases |lines|
  {
    hide OneLine, Ended, SplitLines, Concat;
    if lines == [] {
      ConcatNone();
      assert "" + rest == rest;
    } else if |lines| == 1 {
      ConcatOne(lines[0]);
      assert lines == [lines[0]] && lines[..0] == [];
    } else {
      var tail := lines[1..];
      assert lines == [lines[0]] + tail;
      ConcatJoin([lines[0]], tail);
      ConcatOne(lines[0]);
      SplitContinued(tail, rest);
      SplitOfCons(lines[0], Concat(tail) + rest);
      assert Concat(lines) + rest == lines[0] + (Concat(tail) + rest);
      hide Follow;
      ContinuedCons(lines[0], tail, rest);
    }
  }

  lemma ContinuedCons(line: string, tail: seq<string>, rest: string)
    requires tail != []
    ensures Continued([line] + tail, rest) == [line] + Continued(tail, rest)
  {
    hide SplitLines;
    var lines := [line] + tail;
    assert tail[|tail| - 1] == lines[|lines| - 1];
    assert lines[..|lines| - 1] == [line] + tail[..|tail| - 1];
  }

  /** What follows an ended line is lines of its own. */
  lemma ContinuedEnded(lines: seq<string>, rest: string)
    requires Follow(lines) && lines != [] && Ended(lines[|lines| - 1])
    ensures Continued(lines, rest) == lines + SplitLines(rest)
  {
    hide SplitLines, OneLine, Ended;
    var last := lines[|lines| - 1];
    SplitOfCons(last, rest);
    assert lines == lines[..|lines| - 1] + [last];
    assert lines[..|lines| - 1] + ([last] + SplitLines(rest)) == (lines[..|lines| - 1] + [last]) + SplitLines(rest);
  }

  /** Lines that follow one another, put together and cut again, are the lines they were, without an empty last one. */
  lemma {:induction false} SplitOfConcat(lines: seq<string>)
    requires Follow(lines)
    ensures SplitLines(Concat(lines)) == if lines != [] && lines[|lines| - 1] == "" then lines[..|lines| - 1] else lines
  {
    hide OneLine, Ended, Concat, SplitLines;
    SplitContinued(lines, "");
    assert Concat(lines) + "" == Concat(lines);
    OneSplit("");
    if lines != [] {
      var last := lines[|lines| - 1];
      assert last + "" == last;
      OneSplit(last);
      assert lines == lines[..|lines| - 1] + [last];
    }
  }

  /** Lines before others, all ended, are lines of their own. */
  lemma ContinuedAfter(before: seq<string>, lines: seq<string>, rest: string)
    requires AllEnded(before)
    ensures Continued(before + lines, rest) == before + Continued(lines, rest)
  {
    hide SplitLines, OneLine, Ended;
    if before == [] {
      assert before + lines == lines && before + Continued(lines, rest) == Continued(lines, rest);
    } else if lines == [] {
      assert before + lines == before;
      ContinuedEnded(before, rest);
    } else {
      var all := before + lines;
      assert all[..|all| - 1] == before + lines[..|lines| - 1] && all[|all| - 1] == lines[|lines| - 1];
    }
  }

  lemma {:induction false} NewlineAfter(a: string, b: string)
    requires '\n' !in a
    ensures FirstAt(a + b, '\n') == |a| + FirstAt(b, '\n')
  {
    if a == "" {
      assert a + b == b;
    } else {
      assert (a + b)[1..] == a[1..] + b && a[0] in a;
      NewlineAfter(a[1..], b);
    }
  }

  /** Something after a line with text and no newline goes on that line. */
  lemma RunsOn(line: string, rest: string)
    requires OneLine(line) && line != "" && !Ended(line) && rest != ""
    ensures |SplitLines(line + rest)| == |SplitLines(rest)|
  {
    hide FirstAt, SplitLines;
    var n := FirstAt(rest, '\n');
    assert '\n' !in line;
    NewlineAfter(line, rest);
    SplitCount(rest);
    SplitCount(line + rest);
    if n < |rest| {
      assert (line + rest)[|line| + n + 1..] == rest[n + 1..];
    }
  }

  lemma {:induction false} SplitCount(s: string)
    requires s != ""
    ensures var n := FirstAt(s, '\n'); |SplitLines(s)| == if n < |s| then 1 + |SplitLines(s[n + 1..])| else 1
  {
    hide FirstAt;
  }
}
