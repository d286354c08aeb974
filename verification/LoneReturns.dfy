/**
 Editors that end a line at a lone carriage return too, as the language server protocol
 has it, where the code ends lines at newlines only: when both read the same places.
 */
module LoneReturns {
  import opened Lines
  import opened LineDiff
  import opened NextEdit

  /** Every carriage return comes right before a newline. */
  predicate Paired(s: string) {
    forall i :: 0 <= i < |s| && s[i] == '\r' ==> i + 1 < |s| && s[i + 1] == '\n'
  }

  predicate Break(c: char) {
    c == '\r' || c == '\n'
  }

  function FirstBreak(s: string): (k: nat)
    ensures k <= |s|
    ensures forall i :: 0 <= i < k ==> !Break(s[i])
    ensures k < |s| ==> Break(s[k])
  {
    if s == "" || Break(s[0]) then 0 else 1 + FirstBreak(s[1..])
  }

  /** Where the text's second line starts: after its first newline, carriage return, or both. */
  function AfterBreak(text: string): (at: nat)
    requires FirstBreak(text) < |text|
    ensures 0 < at <= |text|
  {
    var k := FirstBreak(text);
    if text[k] == '\r' && k + 1 < |text| && text[k + 1] == '\n' then k + 2 else k + 1
  }

  /** Where such an editor has line `n` start. */
  function EditorStart(text: string, n: nat): (at: nat)
    ensures at <= |text|
    decreases n
  {
    if n == 0 then 0
    else if FirstBreak(text) == |text| then |text|
    else AfterBreak(text) + EditorStart(text[AfterBreak(text)..], n - 1)
  }

  /** How many characters `units` reach into the line `s` starts with, as it reads lines. */
  function EditorChar(s: string, units: nat): (n: nat)
    ensures n <= |s|
  {
    if s == "" || Break(s[0]) || units < Units(s[0]) then 0 else 1 + EditorChar(s[1..], units - Units(s[0]))
  }

  function EditorOffset(text: string, p: Position): (at: nat)
    ensures at <= |text|
  {
    var start := EditorStart(text, p.line);
    start + EditorChar(text[start..], p.character)
  }

  // ---------- Where lines start ----------

  lemma PairedJoin(a: string, b: string)
    requires a == "" || a[|a| - 1] == '\n'
    ensures Paired(a + b) <==> Paired(a) && Paired(b)
  {
    var s := a + b;
    if Paired(s) {
      assert forall i :: 0 <= i < |a| ==> a[i] == s[i];
      assert forall i :: 0 <= i < |b| ==> b[i] == s[|a| + i];
    }
  }

  /** The first break of a line that ends in a newline is that newline exactly when no carriage return in it stands alone. */
  lemma BreakInLine(line: string, more: string)
    requires OneLine(line) && Ended(line)
    ensures FirstBreak(line + more) < |line|
    ensures AfterBreak(line + more) <= |line|
    ensures AfterBreak(line + more) == |line| <==> Paired(line)
  {
    var s := line + more;
    var k := FirstBreak(s);
    assert s[|line| - 1] == '\n' && forall i :: 0 <= i < |line| ==> s[i] == line[i];
    hide FirstBreak;
    if k + 1 < |line| && line[k + 1] != '\n' {
      assert line[k] == '\r';
    }
  }

  lemma StartNext(text: string, n: nat)
    requires FirstBreak(text) < |text|
    ensures EditorStart(text, n + 1) == AfterBreak(text) + EditorStart(text[AfterBreak(text)..], n)
  {
    hide FirstBreak, AfterBreak;
  }

  /** The line after the first break, when that comes before the line's newline. */
  lemma CutLine(line: string, j: nat)
    requires OneLine(line) && Ended(line) && j < |line|
    ensures OneLine(line[j..]) && Ended(line[j..])
  {
    assert forall i :: 0 <= i < |line| - j ==> line[j..][i] == line[j + i];
  }

  /**
   Such an editor never finds the end of ended lines too late, and finds it where it is
   exactly when no carriage return in them stands alone.
   */
  lemma {:induction false} StartExact(lines: seq<string>, rest: string)
    requires AllEnded(lines)
    ensures var at := EditorStart(Concat(lines) + rest, |lines|);
            at <= |Concat(lines)| && (at == |Concat(lines)| <==> Paired(Concat(lines)))
    decreases |lines|
  {
    hide OneLine, Ended, FirstBreak, AfterBreak, EditorStart, Paired, Concat;
    if lines == [] {
      ConcatNone();
      StartNone(rest);
    } else {
      var line, tail := lines[0], lines[1..];
      assert OneLine(line) && Ended(line) && AllEnded(tail) && lines == [line] + tail;
      hide AllEnded;
      ConcatFirst(line, tail, rest);
      var more := Concat(tail) + rest;
      BreakInLine(line, more);
      PairedAfter(line, Concat(tail));
      StartNext(line + more, |tail|);
      var j := AfterBreak(line + more);
      DropFront(line, more, j);
      if j == |line| {
        StartExact(tail, rest);
      } else {
        var init, last := CutLines(line, tail, rest, j);
        StartExact(init, last + rest);
      }
    }
  }

  lemma StartNone(rest: string)
    ensures EditorStart("" + rest, 0) == 0 && Paired("")
  {
  }

  lemma DropFront(a: string, b: string, j: nat)
    requires j <= |a|
    ensures (a + b)[j..] == a[j..] + b && a[|a|..] + b == b
  {
  }

  lemma PairedAfter(line: string, more: string)
    requires Ended(line)
    ensures Paired(line + more) <==> Paired(line) && Paired(more)
  {
    PairedJoin(line, more);
  }

  /** What is left after the first `j` characters, with its last line taken off. */
  lemma CutLines(line: string, tail: seq<string>, rest: string, j: nat) returns (init: seq<string>, last: string)
    requires OneLine(line) && Ended(line) && AllEnded(tail) && j < |line|
    ensures AllEnded(init) && |init| == |tail| && last != ""
    ensures line[j..] + (Concat(tail) + rest) == Concat(init) + (last + rest)
    ensures j + |Concat(init)| + |last| == |line + Concat(tail)|
  {
    CutLine(line, j);
    var left := line[j..];
    var lines := [left] + tail;
    var n := |tail|;
    init, last := lines[..n], lines[n];
    hide OneLine, Concat;
    assert Ended(last);
    assert lines == init + [last];
    hide Ended;
    ConcatFirst(left, tail, rest);
    ConcatJoin(init, [last]);
    ConcatOne(last);
    GroupText(Concat(init), last, rest);
  }

  /** Line `n` of a document starts at the same place for both exactly when no carriage return before it stands alone. */
  lemma SameStart(lines: seq<string>, rest: string, n: nat)
    requires AreLines(lines) && n <= |lines| && (n > 0 ==> Ended(lines[n - 1]))
    ensures var text := Concat(lines) + rest; var p := Position(n, 0);
            && Offset(text, p) == |Concat(lines[..n])|
            && EditorOffset(text, p) <= |Concat(lines[..n])|
            && (EditorOffset(text, p) == Offset(text, p) <==> Paired(Concat(lines[..n])))
  {
    hide OneLine, Ended, Concat, Offset, EditorStart, Paired;
    var before, after := lines[..n], lines[n..];
    assert lines == before + after;
    ConcatJoin(before, after);
    GroupText(Concat(before), Concat(after), rest);
    StartExact(before, Concat(after) + rest);
    OffsetOfStart(lines, rest, n);
  }

  // ---------- Where a last line ends ----------

  lemma {:induction false} CharsTo(line: string, rest: string)
    requires '\n' !in line
    ensures EditorChar(line + rest, Utf16(line)) <= |line|
    ensures EditorChar(line + rest, Utf16(line)) == |line| <==> '\r' !in line
  {
    if line != "" {
      assert (line + rest)[0] == line[0] && line[0] in line && (line + rest)[1..] == line[1..] + rest;
      CharsTo(line[1..], rest);
    }
  }

  /** A place on a line is never past the line's newline. */
  lemma {:induction false} NotPast(s: string, units: nat, k: nat)
    requires k < |s| && s[k] == '\n'
    ensures EditorChar(s, units) <= k
  {
    if k > 0 && EditorChar(s, units) > 0 {
      NotPast(s[1..], units - Units(s[0]), k - 1);
    }
  }

  lemma PairedLine(line: string)
    requires '\n' !in line
    ensures Paired(line) <==> '\r' !in line
  {
    if '\r' in line {
      var i :| 0 <= i < |line| && line[i] == '\r';
      assert i + 1 < |line| ==> line[i + 1] in line;
    }
  }

  /** The end of lines whose last has no newline is at the same place for both exactly when no carriage return in them stands alone. */
  lemma SameEnd(lines: seq<string>, rest: string)
    requires AreLines(lines) && lines != [] && !Ended(lines[|lines| - 1])
    ensures var text := Concat(lines) + rest; var p := Position(|lines| - 1, Utf16(lines[|lines| - 1]));
            EditorOffset(text, p) == Offset(text, p) <==> Paired(Concat(lines))
  {
    hide OneLine, Ended, Concat, Offset, EditorStart, EditorChar, Paired, AreLines, AllEnded, Utf16;
    var n, last := |lines| - 1, lines[|lines| - 1];
    var before := lines[..n];
    LastOfLines(lines);
    OffsetOfEnd(lines, rest);
    ConcatJoin(before, [last]);
    ConcatOne(last);
    GroupText(Concat(before), last, rest);
    StartExact(before, last + rest);
    EndsInNewline(before);
    PairedJoin(Concat(before), last);
    PairedLine(last);
    EndFound(Concat(before), last, rest, EditorStart(Concat(before) + (last + rest), n));
  }

  /** From a start not too late, the end of the last line is found exactly when the start is right and no carriage return comes first. */
  lemma EndFound(before: string, last: string, rest: string, start: nat)
    requires start <= |before| && '\n' !in last && last != "" && (before == "" || before[|before| - 1] == '\n')
    ensures start + EditorChar((before + (last + rest))[start..], Utf16(last)) == |before + last|
            <==> start == |before| && '\r' !in last
  {
    hide EditorChar, Utf16;
    var text := before + (last + rest);
    if start == |before| {
      DropFront(before, last + rest, start);
      CharsTo(last, rest);
    } else {
      var k := |before| - 1;
      assert text[start..][k - start] == before[k];
      NotPast(text[start..], Utf16(last), k - start);
    }
  }

  lemma EndsInNewline(lines: seq<string>)
    requires AllEnded(lines)
    ensures Concat(lines) == "" || Concat(lines)[|Concat(lines)| - 1] == '\n'
  {
    if lines != [] {
      var n := |lines| - 1;
      assert lines == lines[..n] + [lines[n]];
      ConcatJoin(lines[..n], [lines[n]]);
      ConcatOne(lines[n]);
      assert Ended(lines[n]);
      hide Concat;
    }
  }

  // ---------- The edits' places ----------

  /**
   Both read an edit's two ends at the same places in the document exactly when no
   carriage return in it, up to the end of the lines replaced, stands alone.
   */
  lemma EditReadSame(before: seq<string>, orig: seq<string>, rest: string, shown: seq<string>, next: seq<string>, h: Hunk)
    requires InDocument(before, orig, rest, shown) && Fits(h, shown, next) && Reaches(h, orig, shown)
    requires shown != [] && Ended(shown[|shown| - 1]) ==> Ended(orig[|orig| - 1])
    ensures var text := Document(before, orig, rest); var e := EditOf(|before|, shown, next, h);
            && h.OldEnd() <= |orig|
            && (EditorOffset(text, e.start) == Offset(text, e.start) && EditorOffset(text, e.end) == Offset(text, e.end)
                <==> Paired(Concat((before + orig)[..|before| + h.OldEnd()])))
  {
    hide AreLines, OneLine, Ended, Concat, Offset, EditorOffset, Paired, AllEnded, EditOf, Follow, Document, Fits;
    StartsReadSame(before, orig, rest, shown, next, h);
    EndsReadSame(before, orig, rest, shown, next, h);
    hide InDocument, Reaches;
  }

  lemma StartsReadSame(before: seq<string>, orig: seq<string>, rest: string, shown: seq<string>, next: seq<string>, h: Hunk)
    requires InDocument(before, orig, rest, shown) && Fits(h, shown, next)
    requires shown != [] && Ended(shown[|shown| - 1]) ==> Ended(orig[|orig| - 1])
    requires Reaches(h, orig, shown)
    ensures h.OldEnd() <= |orig|
    ensures var text := Document(before, orig, rest); var start := EditOf(|before|, shown, next, h).start;
            Paired(Concat((before + orig)[..|before| + h.OldEnd()])) ==> EditorOffset(text, start) == Offset(text, start)
  {
    hide AreLines, Ended, Concat, Offset, EditorOffset, Paired, AllEnded, EditOf, Follow, Document;
    EditOfAt(|before|, shown, next, h);
    DocumentLines(before, orig);
    LineReadSame(before, orig, rest, h.oldStart);
    EndedBefore(before, orig, h.oldStart);
    if Paired(Concat((before + orig)[..|before| + h.OldEnd()])) {
      FrontPaired(before + orig, |before| + h.oldStart, |before| + h.OldEnd());
    }
  }

  lemma EndsReadSame(before: seq<string>, orig: seq<string>, rest: string, shown: seq<string>, next: seq<string>, h: Hunk)
    requires InDocument(before, orig, rest, shown) && Fits(h, shown, next) && Reaches(h, orig, shown)
    requires shown != [] && Ended(shown[|shown| - 1]) ==> Ended(orig[|orig| - 1])
    ensures h.OldEnd() <= |orig|
    ensures var text := Document(before, orig, rest); var end := EditOf(|before|, shown, next, h).end;
            EditorOffset(text, end) == Offset(text, end) <==> Paired(Concat((before + orig)[..|before| + h.OldEnd()]))
  {
    hide AreLines, Ended, Concat, Offset, EditorOffset, Paired, AllEnded, EditOf, Follow, Document;
    EditOfAt(|before|, shown, next, h);
    if h.OldEnd() == |shown| > 0 && !Ended(shown[|shown| - 1]) {
      EndReadSame(before, orig, rest);
    } else {
      LineReadSame(before, orig, rest, h.OldEnd());
    }
  }

  lemma LineReadSame(before: seq<string>, orig: seq<string>, rest: string, n: nat)
    requires AllEnded(before) && AreLines(orig) && n <= |orig| && (n == |orig| > 0 ==> Ended(orig[n - 1]))
    ensures var text := Document(before, orig, rest); var p := Position(|before| + n, 0);
            EditorOffset(text, p) == Offset(text, p) <==> Paired(Concat((before + orig)[..|before| + n]))
  {
    hide AreLines, Ended, Concat, Offset, EditorOffset, Paired, AllEnded;
    DocumentLines(before, orig);
    EndedBefore(before, orig, n);
    SameStart(before + orig, rest, |before| + n);
  }

  lemma EndReadSame(before: seq<string>, orig: seq<string>, rest: string)
    requires AllEnded(before) && AreLines(orig) && orig != [] && !Ended(orig[|orig| - 1])
    ensures var text := Document(before, orig, rest); var p := Position(|before| + |orig| - 1, Utf16(orig[|orig| - 1]));
            EditorOffset(text, p) == Offset(text, p) <==> Paired(Concat((before + orig)[..|before| + |orig|]))
  {
    hide AreLines, Ended, Concat, Offset, EditorOffset, Paired, AllEnded, Utf16;
    var lines := before + orig;
    DocumentLines(before, orig);
    assert lines[|lines| - 1] == orig[|orig| - 1];
    AllOf(lines);
    SameEnd(lines, rest);
  }

  /** A line of the window but its last is ended, and so is the one before the window. */
  lemma EndedBefore(before: seq<string>, orig: seq<string>, n: nat)
    requires AllEnded(before) && AreLines(orig) && n <= |orig| && (n == |orig| > 0 ==> Ended(orig[n - 1]))
    ensures |before| + n > 0 ==> Ended((before + orig)[|before| + n - 1])
  {
    hide OneLine, Ended;
    if n > 0 {
      assert (before + orig)[|before| + n - 1] == orig[n - 1];
    } else if before != [] {
      assert (before + orig)[|before| - 1] == before[|before| - 1];
    }
  }

  lemma FrontPaired(lines: seq<string>, i: nat, j: nat)
    requires i <= j <= |lines| && AreLines(lines) && (i > 0 ==> Ended(lines[i - 1]))
    requires Paired(Concat(lines[..j]))
    ensures Paired(Concat(lines[..i]))
  {
    assert AllEnded(lines[..i]);
    EndsInNewline(lines[..i]);
    assert lines[..j] == lines[..i] + lines[i..j];
    ConcatJoin(lines[..i], lines[i..j]);
    hide Concat, OneLine, Ended;
    PairedJoin(Concat(lines[..i]), Concat(lines[i..j]));
  }

  /** The places of a window: its lines' starts, and its end. */
  ghost predicate WindowReadSame(before: seq<string>, orig: seq<string>, rest: string) {
    var text := Document(before, orig, rest);
    && (forall n :: 0 <= n <= |orig| && (n == |orig| > 0 ==> Ended(orig[n - 1])) ==> StartReadSame(text, |before|, n))
    && (orig != [] && !Ended(orig[|orig| - 1]) ==>
          var end := Position(|before| + |orig| - 1, Utf16(orig[|orig| - 1]));
          EditorOffset(text, end) == Offset(text, end))
  }

  /** Line `n` of a window that starts at line `from`. */
  ghost predicate StartReadSame(text: string, from: nat, n: nat) {
    EditorOffset(text, Position(from + n, 0)) == Offset(text, Position(from + n, 0))
  }

  lemma AllOf(lines: seq<string>)
    ensures lines[..|lines|] == lines
  {
  }

  lemma WindowStart(before: seq<string>, orig: seq<string>, rest: string, n: nat)
    requires AllEnded(before) && AreLines(orig) && n <= |orig| && (n == |orig| > 0 ==> Ended(orig[n - 1]))
    ensures var same := StartReadSame(Document(before, orig, rest), |before|, n);
            && (Paired(Concat(before + orig)) ==> same)
            && (n == |orig| ==> (same <==> Paired(Concat(before + orig))))
  {
    hide AllEnded, AreLines, Ended, Concat, Offset, EditorOffset, Paired, Document;
    var lines := before + orig;
    DocumentLines(before, orig);
    EndedBefore(before, orig, n);
    LineReadSame(before, orig, rest, n);
    AllOf(lines);
    if Paired(Concat(lines)) {
      FrontPaired(lines, |before| + n, |lines|);
    }
  }

  /** And all the places in the window exactly when none in the document up to the window's end stands alone. */
  lemma PlacesReadSame(before: seq<string>, orig: seq<string>, rest: string)
    requires AllEnded(before) && AreLines(orig)
    ensures WindowReadSame(before, orig, rest) <==> Paired(Concat(before + orig))
  {
    hide OneLine, Concat, Offset, EditorOffset, Paired, AllEnded, Ended, Document;
    var lines, text := before + orig, Document(before, orig, rest);
    DocumentLines(before, orig);
    assert lines[..|lines|] == lines && (orig != [] ==> lines[|lines| - 1] == orig[|orig| - 1]);
    forall n: nat | n <= |orig| && (n == |orig| > 0 ==> Ended(orig[n - 1]))
      ensures Paired(Concat(lines)) ==> StartReadSame(text, |before|, n)
      ensures |before| + n == |lines| ==> (StartReadSame(text, |before|, n) <==> Paired(Concat(lines)))
    {
      WindowStart(before, orig, rest, n);
    }
    hide StartReadSame;
    if orig != [] && !Ended(orig[|orig| - 1]) {
      EndReadSame(before, orig, rest);
    } else {
      assert WindowReadSame(before, orig, rest) ==> StartReadSame(text, |before|, |orig|);
      assert |before| + |orig| == |lines|;
    }
  }
}
