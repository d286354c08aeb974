/**
 Next-edit suggestions: a model's rewrite of a window of lines turned into edits of the
 document. `orig` are the window's lines as they are, `shown` as the model saw them, with
 secrets withheld.
 */
module NextEdit {
  import opened Basics
  import opened Lines
  import opened LineDiff

  datatype Edit = Edit(start: Position, end: Position, newText: string)

  /** Why no edit is offered, or that some are. */
  datatype Answer = CarriedSecret | RewroteMost | TouchedSecret | NoChange | Offers

  // ---------- The rewrite, given the window's line ends ----------

  function TrimSuffix(s: string, end: string): string {
    if HasSuffix(s, end) then s[..|s| - |end|] else s
  }

  predicate EolSpace(c: char) {
    c == '\r' || c == '\n'
  }

  predicate BarSpace(c: char) {
    c == ' ' || c == '\t'
  }

  predicate EndSpace(c: char) {
    EolSpace(c) || BarSpace(c)
  }

  function LineBody(l: string): string {
    TrimRight(l, EolSpace)
  }

  /** The window's lines by their text without the space at the end: the first such line, as written. */
  function AsWritten(shown: seq<string>): map<string, string> {
    if shown == [] then map[]
    else
      var written, body := AsWritten(shown[..|shown| - 1]), LineBody(shown[|shown| - 1]);
      var key := TrimRight(body, BarSpace);
      if key in written || key == "" then written else written[key := body]
  }

  function Eol(shown: seq<string>): string {
    if |shown| > 0 && HasSuffix(shown[0], "\r\n") then "\r\n" else "\n"
  }

  /** A line of the rewrite without its newline and the space before it. */
  function Bare(l: string): string {
    TrimRight(TrimSuffix(TrimSuffix(l, "\n"), "\r"), BarSpace)
  }

  function NormalLine(l: string, written: map<string, string>, eol: string): string {
    var bare := Bare(l);
    (if bare in written then written[bare] else bare) + (if Ended(l) then eol else "")
  }

  function NormalLines(lines: seq<string>, written: map<string, string>, eol: string): (next: seq<string>)
    ensures |next| == |lines| && forall i :: 0 <= i < |lines| ==> next[i] == NormalLine(lines[i], written, eol)
  {
    seq(|lines|, i requires 0 <= i < |lines| => NormalLine(lines[i], written, eol))
  }

  /** The last line with a newline or without, as the window's last is. */
  function LastAs(line: string, ended: bool, eol: string): string {
    if Ended(line) == ended then line
    else if ended then line + eol
    else TrimSuffix(TrimSuffix(line, "\n"), "\r")
  }

  function LastNormal(next: seq<string>, shown: seq<string>, eol: string): (last: seq<string>)
    ensures |last| == |next|
  {
    if next == [] || shown == [] then next
    else next[|next| - 1 := LastAs(next[|next| - 1], Ended(shown[|shown| - 1]), eol)]
  }

  /** The rewrite's lines with the window's line ends. */
  function NextOf(shown: seq<string>, rewrite: string): seq<string> {
    LastNormal(NormalLines(SplitLines(rewrite), AsWritten(shown), Eol(shown)), shown, Eol(shown))
  }

  method WrittenLines(shown: seq<string>) returns (asWritten: map<string, string>)
    ensures asWritten == AsWritten(shown)
  {
    asWritten := map[];
    for k := 0 to |shown|
      invariant asWritten == AsWritten(shown[..k])
    {
      assert shown[..k + 1][..k] == shown[..k];
      var body := TrimRight(shown[k], EolSpace);
      var key := TrimRight(body, BarSpace);
      if key !in asWritten && key != "" {
        asWritten := asWritten[key := body];
      }
    }
    assert shown[..|shown|] == shown;
  }

  method Normalise(shown: seq<string>, rewrite: string) returns (next: seq<string>)
    ensures next == NextOf(shown, rewrite)
  {
    hide SplitLines, LastAs, Ended, HasSuffix;
    next := SplitLines(rewrite);
    ghost var lines := next;
    var eol := if |shown| > 0 && HasSuffix(shown[0], "\r\n") then "\r\n" else "\n";
    var asWritten := WrittenLines(shown);
    for i := 0 to |next|
      invariant |next| == |lines|
      invariant forall k :: 0 <= k < i ==> next[k] == NormalLine(lines[k], asWritten, eol)
      invariant forall k :: i <= k < |lines| ==> next[k] == lines[k]
    {
      var body, nl := TrimSuffix(next[i], "\n"), Ended(next[i]);
      body := TrimRight(TrimSuffix(body, "\r"), BarSpace);
      if body in asWritten {
        body := asWritten[body];
      }
      next := next[i := body + if nl then eol else ""];
    }
    assert next == NormalLines(lines, asWritten, eol);
    var n := |next|;
    if n > 0 && |shown| > 0 {
      next := next[n - 1 := LastAs(next[n - 1], Ended(shown[|shown| - 1]), eol)];
    }
  }

  // ---------- The edits ----------

  /** Runs of lines that differ only in the white space at the ends of their lines. */
  predicate SameBarTrailingSpace(a: seq<string>, b: seq<string>) {
    |a| == |b| && forall i :: 0 <= i < |a| ==> TrimRight(a[i], EndSpace) == TrimRight(b[i], EndSpace)
  }

  predicate InWindow(h: Hunk, shown: seq<string>) {
    h.OldEnd() <= |shown|
  }

  predicate Fits(h: Hunk, shown: seq<string>, next: seq<string>) {
    InWindow(h, shown) && h.NewEnd() <= |next|
  }

  predicate IsVisible(h: Hunk, shown: seq<string>, next: seq<string>)
    requires Fits(h, shown, next)
  {
    !SameBarTrailingSpace(shown[h.oldStart..h.OldEnd()], next[h.newStart..h.NewEnd()])
  }

  function Visible(hunks: seq<Hunk>, shown: seq<string>, next: seq<string>): seq<Hunk>
    requires forall h :: h in hunks ==> Fits(h, shown, next)
  {
    if hunks == [] then []
    else (if IsVisible(hunks[0], shown, next) then [hunks[0]] else []) + Visible(hunks[1..], shown, next)
  }

  /** The model saw every line the hunk replaces as it is. */
  predicate SeenAsIs(h: Hunk, orig: seq<string>, shown: seq<string>)
    requires |orig| == |shown| && InWindow(h, shown)
  {
    forall i :: h.oldStart <= i < h.OldEnd() ==> shown[i] == orig[i]
  }

  function Seen(hunks: seq<Hunk>, orig: seq<string>, shown: seq<string>): seq<Hunk>
    requires |orig| == |shown| && forall h :: h in hunks ==> InWindow(h, shown)
  {
    if hunks == [] then []
    else (if SeenAsIs(hunks[0], orig, shown) then [hunks[0]] else []) + Seen(hunks[1..], orig, shown)
  }

  function Changes(hunks: seq<Hunk>): nat {
    if hunks == [] then 0 else Max(hunks[0].oldCount, hunks[0].newCount) + Changes(hunks[1..])
  }

  /** The edit for one hunk, in the document's lines; the window starts at line `start`. */
  function EditOf(start: nat, shown: seq<string>, next: seq<string>, h: Hunk): Edit
    requires Fits(h, shown, next)
  {
    var last := h.OldEnd();
    var end := if last == |shown| && last > 0 && !Ended(shown[last - 1])
               then Position(start + last - 1, Utf16(shown[last - 1]))
               else Position(start + last, 0);
    Edit(Position(start + h.oldStart, 0), end, Concat(next[h.newStart..h.NewEnd()]))
  }

  function EditsOf(start: nat, shown: seq<string>, next: seq<string>, hunks: seq<Hunk>): (edits: seq<Edit>)
    requires forall h :: h in hunks ==> Fits(h, shown, next)
    ensures |edits| == |hunks|
    ensures forall i :: 0 <= i < |hunks| ==> edits[i] == EditOf(start, shown, next, hunks[i])
  {
    if hunks == [] then [] else [EditOf(start, shown, next, hunks[0])] + EditsOf(start, shown, next, hunks[1..])
  }

  /** `script` gives an edit script for any two runs of lines. */
  ghost predicate Diffs(script: (seq<string>, seq<string>) -> seq<Op>) {
    forall a, b :: Script(script(a, b), a, b, 0, 0)
  }

  function AllHunks(shown: seq<string>, next: seq<string>, script: (seq<string>, seq<string>) -> seq<Op>): (hunks: seq<Hunk>)
    requires Diffs(script)
    ensures Separate(shown, next, hunks, 0, 0) && InOrder(hunks, |shown|, |next|)
    ensures forall h :: h in hunks ==> Fits(h, shown, next)
  {
    HunksSeparate(script(shown, next), shown, next, 0, 0);
    SeparateInOrder(shown, next, HunksFrom(script(shown, next), 0, 0), 0, 0);
    HunksFrom(script(shown, next), 0, 0)
  }

  lemma {:induction false} VisibleIn(hunks: seq<Hunk>, shown: seq<string>, next: seq<string>)
    requires forall h :: h in hunks ==> Fits(h, shown, next)
    ensures forall h :: h in Visible(hunks, shown, next) <==> h in hunks && IsVisible(h, shown, next)
    ensures InOrder(hunks, |shown|, |next|) ==> InOrder(Visible(hunks, shown, next), |shown|, |next|)
  {
    hide IsVisible, Fits;
    if hunks != [] {
      VisibleIn(hunks[1..], shown, next);
      if InOrder(hunks, |shown|, |next|) {
        TailInOrder(hunks, |shown|, |next|);
        FirstInOrder(hunks, Visible(hunks[1..], shown, next), |shown|, |next|);
      }
      hide InOrder;
    }
  }

  /** The first of some hunks in order before others of them in order is in order. */
  lemma FirstInOrder(hunks: seq<Hunk>, rest: seq<Hunk>, na: nat, nb: nat)
    requires InOrder(hunks, na, nb) && hunks != [] && InOrder(rest, na, nb) && forall h :: h in rest ==> h in hunks[1..]
    ensures InOrder([hunks[0]] + rest, na, nb)
  {
    var all := [hunks[0]] + rest;
    forall j | 0 < j < |all| ensures hunks[0].OldEnd() < all[j].oldStart {
      assert all[j] in rest;
      var k :| 0 <= k < |hunks[1..]| && hunks[1..][k] == all[j];
      assert hunks[k + 1] == all[j];
    }
  }

  /** The hunks that become edits: the visible ones, unless too many, whose lines the model saw as they are. */
  function Offered(orig: seq<string>, shown: seq<string>, next: seq<string>, script: (seq<string>, seq<string>) -> seq<Op>): (taken: seq<Hunk>)
    requires Diffs(script) && |orig| == |shown|
    ensures InOrder(taken, |shown|, |next|)
    ensures forall h :: h in taken ==> Fits(h, shown, next) && SeenAsIs(h, orig, shown)
    ensures forall h :: h in taken ==> h in AllHunks(shown, next, script)
  {
    var hunks := AllHunks(shown, next, script);
    var visible := Visible(hunks, shown, next);
    VisibleIn(hunks, shown, next);
    SeenIn(visible, orig, shown);
    if |shown| > 4 && Changes(visible) > |shown| / 2 then [] else Seen(visible, orig, shown)
  }

  /** Leaves out the hunks that change only white space at the ends of lines. */
  method VisibleHunks(hunks: seq<Hunk>, shown: seq<string>, next: seq<string>) returns (visible: seq<Hunk>)
    requires forall h :: h in hunks ==> Fits(h, shown, next)
    ensures visible == Visible(hunks, shown, next)
  {
    hide IsVisible, Fits;
    visible := [];
    for i := 0 to |hunks|
      invariant visible + Visible(hunks[i..], shown, next) == Visible(hunks, shown, next)
    {
      assert hunks[i..][0] == hunks[i] && hunks[i..][1..] == hunks[i + 1..];
      assert hunks[i] in hunks;
      if IsVisible(hunks[i], shown, next) {
        visible := visible + [hunks[i]];
      }
    }
  }

  method CountChanges(hunks: seq<Hunk>) returns (changed: nat)
    ensures changed == Changes(hunks)
  {
    changed := 0;
    for i := 0 to |hunks|
      invariant changed + Changes(hunks[i..]) == Changes(hunks)
    {
      assert hunks[i..][1..] == hunks[i + 1..];
      changed := changed + Max(hunks[i].oldCount, hunks[i].newCount);
    }
  }

  /** The edits of the hunks seen as they are, a hunk at a time. */
  function EditsSeen(start: nat, orig: seq<string>, shown: seq<string>, next: seq<string>, hunks: seq<Hunk>): seq<Edit>
    requires |orig| == |shown| && forall h :: h in hunks ==> Fits(h, shown, next)
  {
    if hunks == [] then []
    else
      assert hunks[0] in hunks && Fits(hunks[0], shown, next);
      assert forall h :: h in hunks[1..] ==> h in hunks;
      (if SeenAsIs(hunks[0], orig, shown) then [EditOf(start, shown, next, hunks[0])] else [])
      + EditsSeen(start, orig, shown, next, hunks[1..])
  }

  lemma {:induction false} EditsSeenAre(start: nat, orig: seq<string>, shown: seq<string>, next: seq<string>, hunks: seq<Hunk>)
    requires |orig| == |shown| && forall h :: h in hunks ==> InWindow(h, shown) && Fits(h, shown, next)
    ensures forall h :: h in Seen(hunks, orig, shown) ==> Fits(h, shown, next)
    ensures EditsSeen(start, orig, shown, next, hunks) == EditsOf(start, shown, next, Seen(hunks, orig, shown))
  {
    hide SeenAsIs, EditOf, Fits, InWindow;
    if hunks != [] {
      assert forall h :: h in hunks[1..] ==> h in hunks;
      EditsSeenAre(start, orig, shown, next, hunks[1..]);
      var rest := Seen(hunks[1..], orig, shown);
      assert ([hunks[0]] + rest)[1..] == rest && hunks[0] in hunks;
      assert [] + rest == rest;
    }
  }

  /** The edits for the hunks whose lines the model saw as they are, and whether any other was left out. */
  method SeenEdits(start: nat, orig: seq<string>, shown: seq<string>, next: seq<string>, hunks: seq<Hunk>)
    returns (edits: seq<Edit>, skipped: bool)
    requires |orig| == |shown|
    requires forall h :: h in hunks ==> InWindow(h, shown) && Fits(h, shown, next)
    ensures forall h :: h in Seen(hunks, orig, shown) ==> Fits(h, shown, next)
    ensures edits == EditsOf(start, shown, next, Seen(hunks, orig, shown))
    ensures skipped || edits != [] <==> hunks != []
  {
    hide SeenAsIs, EditOf, Fits, InWindow, Seen, EditsOf, EditsSeen;
    EditsSeenAre(start, orig, shown, next, hunks);
    edits, skipped := [], false;
    assert hunks[0..] == hunks;
    for i := 0 to |hunks|
      invariant edits + EditsSeen(start, orig, shown, next, hunks[i..]) == EditsSeen(start, orig, shown, next, hunks)
      invariant if i == 0 then !skipped && edits == [] else skipped || edits != []
    {
      EditsSeenAt(start, orig, shown, next, hunks, i);
      var h := hunks[i];
      assert h in hunks;
      var safe := SeenWhole(h, orig, shown);
      if !safe {
        skipped := true;
        continue;
      }
      var edit := EditFor(start, shown, next, h);
      GroupEdits(edits, edit, EditsSeen(start, orig, shown, next, hunks[i + 1..]));
      edits := edits + [edit];
    }
    EditsSeenNone(start, orig, shown, next, hunks[|hunks|..]);
  }

  lemma EditsSeenAt(start: nat, orig: seq<string>, shown: seq<string>, next: seq<string>, hunks: seq<Hunk>, i: nat)
    requires |orig| == |shown| && i < |hunks| && forall h :: h in hunks ==> Fits(h, shown, next)
    ensures Fits(hunks[i], shown, next) && InWindow(hunks[i], shown)
    ensures forall h :: h in hunks[i..] ==> Fits(h, shown, next)
    ensures forall h :: h in hunks[i + 1..] ==> Fits(h, shown, next)
    ensures var rest := EditsSeen(start, orig, shown, next, hunks[i + 1..]);
            EditsSeen(start, orig, shown, next, hunks[i..])
            == if SeenAsIs(hunks[i], orig, shown) then [EditOf(start, shown, next, hunks[i])] + rest else rest
  {
    assert hunks[i] in hunks && hunks[i..][0] == hunks[i] && hunks[i..][1..] == hunks[i + 1..];
    hide SeenAsIs, EditOf;
    assert [] + EditsSeen(start, orig, shown, next, hunks[i + 1..]) == EditsSeen(start, orig, shown, next, hunks[i + 1..]);
  }

  lemma EditsSeenNone(start: nat, orig: seq<string>, shown: seq<string>, next: seq<string>, hunks: seq<Hunk>)
    requires |orig| == |shown| && hunks == []
    ensures EditsSeen(start, orig, shown, next, hunks) == []
  {
  }

  lemma GroupEdits(a: seq<Edit>, e: Edit, b: seq<Edit>)
    ensures a + ([e] + b) == a + [e] + b
  {
  }

  method SeenWhole(h: Hunk, orig: seq<string>, shown: seq<string>) returns (safe: bool)
    requires |orig| == |shown| && InWindow(h, shown)
    ensures safe == SeenAsIs(h, orig, shown)
  {
    safe := true;
    for i := h.oldStart to h.OldEnd()
      invariant safe <==> forall k :: h.oldStart <= k < i ==> shown[k] == orig[k]
    {
      if shown[i] != orig[i] {
        safe := false;
      }
    }
  }

  method EditFor(start: nat, shown: seq<string>, next: seq<string>, h: Hunk) returns (edit: Edit)
    requires Fits(h, shown, next)
    ensures edit == EditOf(start, shown, next, h)
  {
    var end := Position(start + h.OldEnd(), 0);
    var last := h.OldEnd();
    if last == |shown| && last > 0 && !Ended(shown[last - 1]) {
      end := Position(start + last - 1, Utf16(shown[last - 1]));
    }
    edit := Edit(Position(start + h.oldStart, 0), end, Concat(next[h.newStart..h.NewEnd()]));
  }

  method WindowEdits(start: nat, orig: seq<string>, shown: seq<string>, rewrite: string, clean: string -> string,
                     script: (seq<string>, seq<string>) -> seq<Op>)
    returns (edits: seq<Edit>, answer: Answer)
    requires Diffs(script) && |orig| == |shown|
    ensures answer == CarriedSecret <==> clean(rewrite) != rewrite
    ensures var next := NextOf(shown, rewrite); var visible := Visible(AllHunks(shown, next, script), shown, next);
            var taken := Offered(orig, shown, next, script);
            if answer == CarriedSecret then edits == []
            else
              && edits == EditsOf(start, shown, next, taken)
              && (answer == RewroteMost <==> |shown| > 4 && Changes(visible) > |shown| / 2)
              && (answer == Offers <==> taken != [])
              && (answer == TouchedSecret ==> visible != [])
              && (answer == NoChange ==> visible == [])
  {
    if clean(rewrite) != rewrite {
      return [], CarriedSecret;
    }
    var next := Normalise(shown, rewrite);
    hide NextOf;
    var hunks := Hunks(script(shown, next));
    assert hunks == AllHunks(shown, next, script);
    hide AllHunks, Script, Separate, InOrder, Seen, Visible, Changes, SeenAsIs;
    VisibleIn(hunks, shown, next);
    var visible := VisibleHunks(hunks, shown, next);
    var changed := CountChanges(visible);
    if |shown| > 4 && changed > |shown| / 2 {
      return [], RewroteMost;
    }
    var skipped;
    edits, skipped := SeenEdits(start, orig, shown, next, visible);
    answer := if edits != [] then Offers else if skipped then TouchedSecret else NoChange;
  }

  lemma {:induction false} SeenIn(hunks: seq<Hunk>, orig: seq<string>, shown: seq<string>)
    requires |orig| == |shown| && forall h :: h in hunks ==> InWindow(h, shown)
    ensures forall h :: h in Seen(hunks, orig, shown) <==> h in hunks && SeenAsIs(h, orig, shown)
    ensures forall na, nb :: InOrder(hunks, na, nb) ==> InOrder(Seen(hunks, orig, shown), na, nb)
  {
    hide SeenAsIs;
    if hunks != [] {
      SeenIn(hunks[1..], orig, shown);
      forall na: nat, nb: nat | InOrder(hunks, na, nb) ensures InOrder(Seen(hunks, orig, shown), na, nb) {
        TailInOrder(hunks, na, nb);
        FirstInOrder(hunks, Seen(hunks[1..], orig, shown), na, nb);
      }
      hide InOrder;
    }
  }

  // ---------- The rewrite's lines keep the window's shape ----------

  lemma {:induction false} AsWrittenLines(shown: seq<string>, key: string)
    requires Follow(shown) && key in AsWritten(shown)
    ensures '\n' !in AsWritten(shown)[key]
    decreases |shown|
  {
    var last := shown[|shown| - 1];
    var init := shown[..|shown| - 1];
    assert forall i :: 0 <= i < |init| ==> init[i] == shown[i];
    BodyHasNone(last);
    if key in AsWritten(init) {
      AsWrittenLines(init, key);
    }
  }

  lemma BodyHasNone(l: string)
    requires OneLine(l)
    ensures '\n' !in LineBody(l)
  {
    var t := LineBody(l);
    if |t| == |l| && l != "" {
      assert !EolSpace(t[|t| - 1]);
    }
  }

  lemma BareHasNone(l: string)
    requires OneLine(l)
    ensures '\n' !in Bare(l)
  {
    var s := TrimSuffix(l, "\n");
    assert Ended(l) ==> l[|l| - 1..] == "\n";
    assert '\n' !in s;
    var t := TrimSuffix(s, "\r");
    assert '\n' !in t;
  }

  lemma EolShape(shown: seq<string>)
    ensures var eol := Eol(shown); eol == "\n" || eol == "\r\n"
  {
  }

  lemma LineShape(body: string, eol: string, ended: bool)
    requires '\n' !in body && (eol == "\n" || eol == "\r\n")
    ensures var l := body + if ended then eol else ""; OneLine(l) && Ended(l) == ended
  {
  }

  lemma NormalShape(l: string, shown: seq<string>)
    requires OneLine(l) && Follow(shown)
    ensures var n := NormalLine(l, AsWritten(shown), Eol(shown)); OneLine(n) && Ended(n) == Ended(l)
  {
    hide Bare, AsWritten, Eol, OneLine, Ended;
    BareHasNone(l);
    EolShape(shown);
    var written := AsWritten(shown);
    if Bare(l) in written {
      AsWrittenLines(shown, Bare(l));
    }
    LineShape(if Bare(l) in written then written[Bare(l)] else Bare(l), Eol(shown), Ended(l));
  }

  lemma LastShape(line: string, ended: bool, shown: seq<string>)
    requires OneLine(line)
    ensures var l := LastAs(line, ended, Eol(shown)); OneLine(l) && Ended(l) == ended
  {
    hide Eol;
    EolShape(shown);
    if ended && !Ended(line) {
      assert '\n' !in line;
      LineShape(line, Eol(shown), true);
    } else if !ended && Ended(line) {
      UnendedShape(line);
    }
  }

  lemma UnendedShape(line: string)
    requires OneLine(line) && Ended(line)
    ensures var l := TrimSuffix(TrimSuffix(line, "\n"), "\r"); OneLine(l) && !Ended(l)
  {
    assert line[|line| - 1..] == "\n";
    assert '\n' !in line[..|line| - 1];
    assert TrimSuffix(line, "\n") == line[..|line| - 1];
  }

  /** The rewrite's lines follow one another, and the last ends as the window's last does. */
  lemma NextShape(shown: seq<string>, rewrite: string)
    requires Follow(shown)
    ensures var next := NextOf(shown, rewrite);
            Follow(next) && (next != [] && shown != [] ==> (Ended(next[|next| - 1]) <==> Ended(shown[|shown| - 1])))
  {
    hide NormalLine, AsWritten, Eol, OneLine, Ended, LastAs, SplitLines;
    var lines := SplitLines(rewrite);
    SplitLinesAre(rewrite);
    var normal := NormalLines(lines, AsWritten(shown), Eol(shown));
    forall i | 0 <= i < |lines| ensures OneLine(normal[i]) && Ended(normal[i]) == Ended(lines[i]) {
      NormalShape(lines[i], shown);
    }
    if normal != [] && shown != [] {
      LastShape(normal[|normal| - 1], Ended(shown[|shown| - 1]), shown);
    }
  }

  function WrittenKey(l: string): string {
    TrimRight(LineBody(l), BarSpace)
  }

  lemma {:induction false} WrittenFirst(shown: seq<string>, k: nat)
    requires k < |shown| && WrittenKey(shown[k]) != ""
    requires forall i :: 0 <= i < k ==> WrittenKey(shown[i]) != WrittenKey(shown[k])
    ensures WrittenKey(shown[k]) in AsWritten(shown) && AsWritten(shown)[WrittenKey(shown[k])] == LineBody(shown[k])
    decreases |shown|
  {
    hide AsWritten, WrittenKey, LineBody;
    WrittenNext(shown);
    var init := shown[..|shown| - 1];
    if k < |init| {
      WrittenFirst(init, k);
    } else {
      WrittenBefore(init, WrittenKey(shown[k]));
    }
  }

  /** Each line of the window adds its text to those before it, unless that is empty or there already. */
  lemma WrittenNext(shown: seq<string>)
    requires shown != []
    ensures var last := shown[|shown| - 1]; var written := AsWritten(shown[..|shown| - 1]); var key := WrittenKey(last);
            AsWritten(shown) == if key in written || key == "" then written else written[key := LineBody(last)]
  {
    hide LineBody, TrimRight;
  }

  lemma {:induction false} WrittenBefore(shown: seq<string>, key: string)
    requires forall i :: 0 <= i < |shown| ==> WrittenKey(shown[i]) != key
    ensures key !in AsWritten(shown)
    decreases |shown|
  {
    hide TrimRight;
    if shown != [] {
      WrittenBefore(shown[..|shown| - 1], key);
    }
  }

  /**
   A line the rewrite copied, but for the space before its end, comes back as the first
   such line of the window is written, with the window's line end if it had one.
   */
  lemma CopiedLine(shown: seq<string>, l: string, k: nat)
    requires k < |shown| && WrittenKey(shown[k]) == Bare(l) != ""
    requires forall i :: 0 <= i < k ==> WrittenKey(shown[i]) != Bare(l)
    ensures NormalLine(l, AsWritten(shown), Eol(shown)) == LineBody(shown[k]) + if Ended(l) then Eol(shown) else ""
  {
    hide Bare, WrittenKey, AsWritten, LineBody, Eol;
    WrittenFirst(shown, k);
  }

  // ---------- Applying the edits ----------

  /** Edits that can be made to `text` in order, from `at` on, none over another. */
  ghost predicate Applicable(text: string, at: nat, edits: seq<Edit>)
    decreases |edits|
  {
    if edits == [] then at <= |text|
    else at <= Offset(text, edits[0].start) <= Offset(text, edits[0].end) && Applicable(text, Offset(text, edits[0].end), edits[1..])
  }

  /** The text from `at` with the edits made, their places all those of the text before any. */
  ghost function Apply(text: string, at: nat, edits: seq<Edit>): string
    requires Applicable(text, at, edits)
    decreases |edits|
  {
    if edits == [] then text[at..]
    else text[at..Offset(text, edits[0].start)] + edits[0].newText + Apply(text, Offset(text, edits[0].end), edits[1..])
  }

  /** Hunks with the window's last line, when it has no newline, among the lines they replace if they reach it. */
  ghost predicate Reaches(h: Hunk, orig: seq<string>, shown: seq<string>) {
    |orig| == |shown| && (h.OldEnd() == |shown| > 0 && !Ended(shown[|shown| - 1]) ==>
      h.oldCount > 0 && orig[|shown| - 1] == shown[|shown| - 1])
  }

  /**
   A window of a document: whole lines before it, and `rest` after it, which goes on the
   window's last line when that is sent without its newline. What was cleaned to be shown
   has a newline at its end only where the window does, or at the document's end.
   */
  ghost predicate InDocument(before: seq<string>, orig: seq<string>, rest: string, shown: seq<string>) {
    && AllEnded(before) && AreLines(orig) && Follow(shown) && |orig| == |shown|
    && (shown != [] && Ended(shown[|shown| - 1]) ==> Ended(orig[|orig| - 1]) || rest == "")
  }

  lemma DocumentLines(before: seq<string>, orig: seq<string>)
    requires AllEnded(before) && AreLines(orig)
    ensures AreLines(before + orig)
    ensures before != [] ==> Ended(before[|before| - 1])
  {
    hide OneLine;
    var lines := before + orig;
    assert forall i :: 0 <= i < |orig| ==> lines[|before| + i] == orig[i];
  }

  lemma {:induction false} ConcatSlice(lines: seq<string>, i: nat, j: nat)
    requires i <= j <= |lines|
    ensures |Concat(lines[..i])| <= |Concat(lines[..j])| <= |Concat(lines)|
    ensures Concat(lines)[|Concat(lines[..i])|..|Concat(lines[..j])|] == Concat(lines[i..j])
  {
    hide Concat;
    assert lines == lines[..j] + lines[j..] && lines[..j] == lines[..i] + lines[i..j];
    ConcatJoin(lines[..j], lines[j..]);
    ConcatJoin(lines[..i], lines[i..j]);
  }

  /** The text of the document. */
  function Document(before: seq<string>, orig: seq<string>, rest: string): string {
    Concat(before + orig) + rest
  }

  /** Where line `i` of the window starts in it. */
  function PlaceOf(before: seq<string>, orig: seq<string>, i: nat): nat
    requires i <= |orig|
  {
    |Concat((before + orig)[..|before| + i])|
  }

  /** An edit's ends are where its hunk's lines start and end in the document. */
  lemma EditOffsets(before: seq<string>, orig: seq<string>, rest: string, shown: seq<string>, next: seq<string>, h: Hunk)
    requires InDocument(before, orig, rest, shown) && Fits(h, shown, next) && Reaches(h, orig, shown)
    ensures var text := Document(before, orig, rest); var e := EditOf(|before|, shown, next, h);
            && h.OldEnd() <= |orig|
            && Offset(text, e.start) == PlaceOf(before, orig, h.oldStart)
            && Offset(text, e.end) == PlaceOf(before, orig, h.OldEnd())
  {
    hide AreLines, Concat, Offset, Ended, Follow, AllEnded, EditOf;
    EditOfAt(|before|, shown, next, h);
    DocumentLines(before, orig);
    LinePlace(before, orig, rest, h.oldStart);
    if h.OldEnd() == |shown| > 0 && !Ended(shown[|shown| - 1]) {
      EndPlace(before, orig, rest);
    } else {
      LinePlace(before, orig, rest, h.OldEnd());
    }
  }

  lemma EditOfAt(start: nat, shown: seq<string>, next: seq<string>, h: Hunk)
    requires Fits(h, shown, next)
    ensures var e := EditOf(start, shown, next, h);
            && e.start == Position(start + h.oldStart, 0)
            && e.end == (if h.OldEnd() == |shown| > 0 && !Ended(shown[|shown| - 1])
                         then Position(start + |shown| - 1, Utf16(shown[|shown| - 1]))
                         else Position(start + h.OldEnd(), 0))
  {
    hide Ended, Utf16, Concat;
  }

  lemma LinePlace(before: seq<string>, orig: seq<string>, rest: string, n: nat)
    requires AreLines(before + orig) && n <= |orig|
    requires n == |orig| > 0 ==> Ended(orig[n - 1]) || rest == ""
    requires n == |orig| == 0 && before != [] ==> Ended(before[|before| - 1])
    ensures Offset(Document(before, orig, rest), Position(|before| + n, 0)) == PlaceOf(before, orig, n)
  {
    hide AreLines, Concat, Offset, Ended;
    var lines := before + orig;
    assert orig != [] ==> lines[|lines| - 1] == orig[|orig| - 1];
    OffsetOfStart(lines, rest, |before| + n);
  }

  lemma EndPlace(before: seq<string>, orig: seq<string>, rest: string)
    requires AreLines(before + orig) && orig != [] && !Ended(orig[|orig| - 1])
    ensures Offset(Document(before, orig, rest), Position(|before| + |orig| - 1, Utf16(orig[|orig| - 1])))
         == PlaceOf(before, orig, |orig|)
  {
    hide AreLines, Concat, Offset, Ended;
    var lines := before + orig;
    assert lines[|lines| - 1] == orig[|orig| - 1] && lines[..|before| + |orig|] == lines;
    OffsetOfEnd(lines, rest);
  }

  lemma {:induction false} ApplyFrom(before: seq<string>, orig: seq<string>, rest: string, shown: seq<string>,
                                     next: seq<string>, hunks: seq<Hunk>, from: nat)
    requires InDocument(before, orig, rest, shown) && from <= |orig|
    requires InOrder(hunks, |shown|, |next|) && (hunks != [] ==> from <= hunks[0].oldStart)
    requires forall h :: h in hunks ==> Fits(h, shown, next) && Reaches(h, orig, shown)
    ensures var text := Document(before, orig, rest); var at := PlaceOf(before, orig, from);
            && Applicable(text, at, EditsOf(|before|, shown, next, hunks))
            && Apply(text, at, EditsOf(|before|, shown, next, hunks)) == Concat(Patched(orig, next, hunks, from)) + rest
    decreases |hunks|
  {
    assert |orig| == |shown|;
    hide InDocument, Document, PlaceOf, Concat, Offset, Reaches, EditOf, Fits, InWindow, Applicable, Apply, Patched, EditsOf, InOrder;
    if hunks == [] {
      ApplyNone(before, orig, rest, shown, next, from);
    } else {
      var h := hunks[0];
      var more := hunks[1..];
      assert h in hunks && forall g :: g in more ==> g in hunks;
      PatchedFirst(orig, next, hunks, from);
      ApplyFrom(before, orig, rest, shown, next, more, h.OldEnd());
      EditOffsets(before, orig, rest, shown, next, h);
      EditsFirst(|before|, shown, next, hunks);
      ApplyHunk(before, orig, rest, shown, next, hunks, from);
    }
  }

  lemma ApplyHunk(before: seq<string>, orig: seq<string>, rest: string, shown: seq<string>, next: seq<string>,
                  hunks: seq<Hunk>, from: nat)
    requires |orig| == |shown| && hunks != [] && from <= hunks[0].oldStart && hunks[0].OldEnd() <= |orig|
    requires (forall h :: h in hunks ==> Fits(h, shown, next)) && forall h :: h in hunks[1..] ==> Fits(h, shown, next)
    requires InOrder(hunks, |orig|, |next|) && InOrder(hunks[1..], |orig|, |next|)
    requires Fits(hunks[0], shown, next) && (|hunks| > 1 ==> hunks[0].OldEnd() <= hunks[1].oldStart)
    requires var h := hunks[0]; var text := Document(before, orig, rest); var e := EditOf(|before|, shown, next, h);
             && Offset(text, e.start) == PlaceOf(before, orig, h.oldStart)
             && Offset(text, e.end) == PlaceOf(before, orig, h.OldEnd())
    requires var h := hunks[0]; var text := Document(before, orig, rest); var at := PlaceOf(before, orig, h.OldEnd());
             var edits := EditsOf(|before|, shown, next, hunks[1..]);
             && Applicable(text, at, edits)
             && Apply(text, at, edits) == Concat(Patched(orig, next, hunks[1..], h.OldEnd())) + rest
    requires EditsOf(|before|, shown, next, hunks)
          == [EditOf(|before|, shown, next, hunks[0])] + EditsOf(|before|, shown, next, hunks[1..])
    requires EditOf(|before|, shown, next, hunks[0]).newText == Concat(next[hunks[0].newStart..hunks[0].NewEnd()])
    ensures var text := Document(before, orig, rest); var at := PlaceOf(before, orig, from);
            && Applicable(text, at, EditsOf(|before|, shown, next, hunks))
            && Apply(text, at, EditsOf(|before|, shown, next, hunks)) == Concat(Patched(orig, next, hunks, from)) + rest
  {
    hide Document, PlaceOf, Concat, Offset, EditOf, Fits, InWindow, Applicable, Apply, Patched, EditsOf, InOrder;
    var h := hunks[0];
    PatchedJoin(orig, next, hunks, from);
    DocSlice(before, orig, rest, from, h.oldStart);
    DocSlice(before, orig, rest, h.oldStart, h.OldEnd());
    ApplyOne(Document(before, orig, rest), PlaceOf(before, orig, from), EditOf(|before|, shown, next, h),
             EditsOf(|before|, shown, next, hunks[1..]),
             Concat(orig[from..h.oldStart]), Concat(Patched(orig, next, hunks[1..], h.OldEnd())), rest);
  }

  lemma ApplyOne(text: string, at: nat, e: Edit, edits: seq<Edit>, kept: string, more: string, rest: string)
    requires at <= Offset(text, e.start) <= Offset(text, e.end) && text[at..Offset(text, e.start)] == kept
    requires Applicable(text, Offset(text, e.end), edits) && Apply(text, Offset(text, e.end), edits) == more + rest
    ensures Applicable(text, at, [e] + edits)
    ensures Apply(text, at, [e] + edits) == kept + e.newText + more + rest
  {
    hide Offset, Apply, Applicable;
    ApplyCons(text, at, e, edits);
    Regroup(kept, e.newText, more, rest);
  }

  lemma Regroup(a: string, b: string, c: string, d: string)
    ensures a + b + (c + d) == a + b + c + d
  {
  }

  lemma ApplyNone(before: seq<string>, orig: seq<string>, rest: string, shown: seq<string>, next: seq<string>, from: nat)
    requires from <= |orig|
    ensures var text := Document(before, orig, rest); var at := PlaceOf(before, orig, from);
            && Applicable(text, at, EditsOf(|before|, shown, next, []))
            && Apply(text, at, EditsOf(|before|, shown, next, [])) == Concat(Patched(orig, next, [], from)) + rest
  {
    hide Concat, Offset;
    var lines := before + orig;
    DropLines(lines, rest, |before| + from);
    assert lines[|before| + from..] == orig[from..];
  }

  lemma DocSlice(before: seq<string>, orig: seq<string>, rest: string, i: nat, j: nat)
    requires i <= j <= |orig|
    ensures var text := Document(before, orig, rest); var s, t := PlaceOf(before, orig, i), PlaceOf(before, orig, j);
            s <= t <= |text| && text[s..t] == Concat(orig[i..j])
  {
    hide Concat;
    var lines := before + orig;
    ConcatSlice(lines, |before| + i, |before| + j);
    assert lines[|before| + i..|before| + j] == orig[i..j];
    assert (Concat(lines) + rest)[..|Concat(lines)|] == Concat(lines);
  }

  lemma ApplyCons(text: string, at: nat, e: Edit, edits: seq<Edit>)
    requires at <= Offset(text, e.start) <= Offset(text, e.end) && Applicable(text, Offset(text, e.end), edits)
    ensures Applicable(text, at, [e] + edits)
    ensures Apply(text, at, [e] + edits)
         == text[at..Offset(text, e.start)] + e.newText + Apply(text, Offset(text, e.end), edits)
  {
    assert ([e] + edits)[1..] == edits;
    hide Offset;
  }

  lemma {:induction false} ApplyEarlier(text: string, at: nat, edits: seq<Edit>)
    requires Applicable(text, at, edits) && at <= |text|
    ensures Applicable(text, 0, edits) && Apply(text, 0, edits) == text[..at] + Apply(text, at, edits)
  {
    hide Offset;
    if edits != [] {
      var s, t := Offset(text, edits[0].start), Offset(text, edits[0].end);
      assert text[0..s] == text[..at] + text[at..s];
    }
  }

  lemma EditsFirst(start: nat, shown: seq<string>, next: seq<string>, hunks: seq<Hunk>)
    requires hunks != [] && forall h :: h in hunks ==> Fits(h, shown, next)
    requires Fits(hunks[0], shown, next) && forall h :: h in hunks[1..] ==> Fits(h, shown, next)
    ensures EditsOf(start, shown, next, hunks)
         == [EditOf(start, shown, next, hunks[0])] + EditsOf(start, shown, next, hunks[1..])
    ensures EditOf(start, shown, next, hunks[0]).newText == Concat(next[hunks[0].newStart..hunks[0].NewEnd()])
  {
    hide Concat, Utf16, Ended;
  }

  lemma PatchedJoin(orig: seq<string>, next: seq<string>, hunks: seq<Hunk>, from: nat)
    requires from <= |orig| && InOrder(hunks, |orig|, |next|) && hunks != [] && from <= hunks[0].oldStart
    ensures var h := hunks[0];
            && h.OldEnd() <= |orig| && h.NewEnd() <= |next| && InOrder(hunks[1..], |orig|, |next|)
            && (|hunks| > 1 ==> h.OldEnd() <= hunks[1].oldStart)
            && Concat(Patched(orig, next, hunks, from))
               == Concat(orig[from..h.oldStart]) + Concat(next[h.newStart..h.NewEnd()])
                  + Concat(Patched(orig, next, hunks[1..], h.OldEnd()))
  {
    hide Patched, Concat, InOrder;
    PatchedFirst(orig, next, hunks, from);
    var h := hunks[0];
    var a, b, c := orig[from..h.oldStart], next[h.newStart..h.NewEnd()], Patched(orig, next, hunks[1..], h.OldEnd());
    assert Patched(orig, next, hunks, from) == (a + b) + c;
    ConcatJoin(a + b, c);
    ConcatJoin(a, b);
  }

  /**
   Hunks reach the window's unended last line only by replacing it: that is what giving
   the rewrite's last line the window's end is for.
   */
  lemma OfferedReach(orig: seq<string>, shown: seq<string>, rewrite: string, script: (seq<string>, seq<string>) -> seq<Op>, h: Hunk)
    requires Diffs(script) && |orig| == |shown| && Follow(shown)
    requires h in Offered(orig, shown, NextOf(shown, rewrite), script)
    ensures Reaches(h, orig, shown)
  {
    hide NextOf, Offered, AllHunks, Follow, SeenAsIs, Fits, Separate, InOrder;
    var next := NextOf(shown, rewrite);
    NextShape(shown, rewrite);
    SeparateReach(orig, shown, next, AllHunks(shown, next, script), h);
  }

  lemma {:induction false} SeparateReach(orig: seq<string>, shown: seq<string>, next: seq<string>, hunks: seq<Hunk>, h: Hunk)
    requires |orig| == |shown| && Separate(shown, next, hunks, 0, 0) && h in hunks && Fits(h, shown, next)
    requires SeenAsIs(h, orig, shown) && Follow(next)
    requires next != [] && shown != [] ==> (Ended(next[|next| - 1]) <==> Ended(shown[|shown| - 1]))
    ensures Reaches(h, orig, shown)
  {
    hide Separate, Ended, OneLine;
    if h.OldEnd() == |shown| > 0 && h.oldCount == 0 {
      KeptBefore(shown, next, hunks, 0, 0, h);
    }
  }

  /**
   The edits a suggestion gives, made to the document all at once, give the document
   with exactly the offered hunks' lines replaced by the rewrite's, and nothing else.
   */
  lemma {:induction false} EditsApply(before: seq<string>, orig: seq<string>, rest: string, shown: seq<string>,
                                      rewrite: string, script: (seq<string>, seq<string>) -> seq<Op>)
    requires Diffs(script) && InDocument(before, orig, rest, shown)
    ensures var next := NextOf(shown, rewrite); var taken := Offered(orig, shown, next, script);
            var edits := EditsOf(|before|, shown, next, taken); var text := Document(before, orig, rest);
            && Applicable(text, 0, edits)
            && Apply(text, 0, edits) == Concat(before) + Concat(Patched(orig, next, taken, 0)) + rest
  {
    assert |orig| == |shown| && Follow(shown);
    hide InDocument, Document, Applicable, Apply, EditsOf, Patched, Concat, NextOf, Offered;
    var next := NextOf(shown, rewrite);
    OfferedReaches(orig, shown, rewrite, script);
    ApplyAll(before, orig, rest, shown, next, Offered(orig, shown, next, script));
  }

  lemma OfferedReaches(orig: seq<string>, shown: seq<string>, rewrite: string, script: (seq<string>, seq<string>) -> seq<Op>)
    requires Diffs(script) && |orig| == |shown| && Follow(shown)
    ensures var next := NextOf(shown, rewrite);
            forall h :: h in Offered(orig, shown, next, script) ==> Fits(h, shown, next) && Reaches(h, orig, shown)
  {
    hide NextOf, Offered, Reaches, Fits;
    var next := NextOf(shown, rewrite);
    forall h | h in Offered(orig, shown, next, script) ensures Fits(h, shown, next) && Reaches(h, orig, shown) {
      OfferedReach(orig, shown, rewrite, script, h);
    }
  }

  lemma ApplyAll(before: seq<string>, orig: seq<string>, rest: string, shown: seq<string>, next: seq<string>, taken: seq<Hunk>)
    requires InDocument(before, orig, rest, shown) && |orig| == |shown| && InOrder(taken, |shown|, |next|)
    requires forall h :: h in taken ==> Fits(h, shown, next) && Reaches(h, orig, shown)
    ensures var edits := EditsOf(|before|, shown, next, taken); var text := Document(before, orig, rest);
            && Applicable(text, 0, edits)
            && Apply(text, 0, edits) == Concat(before) + Concat(Patched(orig, next, taken, 0)) + rest
  {
    hide Reaches, Fits, InDocument, Document, PlaceOf, Concat, InOrder, Apply, Applicable, EditsOf, Patched;
    ApplyFrom(before, orig, rest, shown, next, taken, 0);
    var result := Concat(Patched(orig, next, taken, 0)) + rest;
    FromStart(before, orig, rest, EditsOf(|before|, shown, next, taken), result);
    GroupText(Concat(before), Concat(Patched(orig, next, taken, 0)), rest);
  }

  /** Edits made from the window's start leave what comes before as it is. */
  lemma {:induction false} FromStart(before: seq<string>, orig: seq<string>, rest: string, edits: seq<Edit>, result: string)
    requires var text := Document(before, orig, rest); var at := PlaceOf(before, orig, 0);
             Applicable(text, at, edits) && Apply(text, at, edits) == result
    ensures var text := Document(before, orig, rest);
            Applicable(text, 0, edits) && Apply(text, 0, edits) == Concat(before) + result
  {
    hide Applicable, Apply, Concat;
    assert (before + orig)[..|before| + 0] == before;
    ConcatJoin(before, orig);
    assert Document(before, orig, rest)[..|Concat(before)|] == Concat(before);
    ApplyEarlier(Document(before, orig, rest), |Concat(before)|, edits);
  }

  // ---------- Where the edits are, and what they leave ----------

  /** The edits lie in the window, each from its start to its end, in order and apart. */
  lemma EditsInOrder(start: nat, orig: seq<string>, shown: seq<string>, rewrite: string,
                     script: (seq<string>, seq<string>) -> seq<Op>)
    requires Diffs(script) && |orig| == |shown| && Follow(shown)
    ensures var next := NextOf(shown, rewrite); var edits := EditsOf(start, shown, next, Offered(orig, shown, next, script));
            && (forall i :: 0 <= i < |edits| ==>
                  && !edits[i].end.Before(edits[i].start)
                  && start <= edits[i].start.line && !Position(start + |shown|, 0).Before(edits[i].end))
            && (forall i, j :: 0 <= i < j < |edits| ==> edits[i].end.Before(edits[j].start))
  {
    hide NextOf, Offered, Reaches, EditsOf, EditOf, Follow, InOrder, Fits;
    var next := NextOf(shown, rewrite);
    var taken := Offered(orig, shown, next, script);
    OfferedReaches(orig, shown, rewrite, script);
    forall i | 0 <= i < |taken|
      ensures var e := EditOf(start, shown, next, taken[i]);
              && !e.end.Before(e.start)
              && start <= e.start.line && !Position(start + |shown|, 0).Before(e.end)
    {
      assert taken[i] in taken;
      EditInWindow(start, orig, shown, next, taken[i]);
    }
    forall i, j | 0 <= i < j < |taken|
      ensures EditOf(start, shown, next, taken[i]).end.Before(EditOf(start, shown, next, taken[j]).start)
    {
      assert taken[i] in taken && taken[j] in taken;
      TwoInOrder(taken, |shown|, |next|, i, j);
      EditsApart(start, shown, next, taken[i], taken[j]);
    }
  }

  lemma EditInWindow(start: nat, orig: seq<string>, shown: seq<string>, next: seq<string>, h: Hunk)
    requires Fits(h, shown, next) && Reaches(h, orig, shown)
    ensures var e := EditOf(start, shown, next, h);
            && !e.end.Before(e.start)
            && start <= e.start.line && !Position(start + |shown|, 0).Before(e.end)
  {
    hide Ended, EditOf, Utf16;
    EditOfAt(start, shown, next, h);
  }

  lemma TwoInOrder(hunks: seq<Hunk>, na: nat, nb: nat, i: nat, j: nat)
    requires InOrder(hunks, na, nb) && i < j < |hunks|
    ensures hunks[i].OldEnd() < hunks[j].oldStart <= na
  {
    assert hunks[j] in hunks;
  }

  lemma EditsApart(start: nat, shown: seq<string>, next: seq<string>, g: Hunk, h: Hunk)
    requires Fits(g, shown, next) && Fits(h, shown, next) && g.OldEnd() < h.oldStart <= |shown|
    ensures EditOf(start, shown, next, g).end.Before(EditOf(start, shown, next, h).start)
  {
    hide Ended, EditOf, Utf16;
    EditOfAt(start, shown, next, g);
    EditOfAt(start, shown, next, h);
  }

  /**
   A line of the window the model was not shown as it is stays in the document, as it is
   and in its place: after what the offered hunks make of the lines before it, and before
   what they make of those after it.
   */
  lemma WithheldKept(orig: seq<string>, shown: seq<string>, rewrite: string, script: (seq<string>, seq<string>) -> seq<Op>, i: nat)
    returns (k: nat)
    requires Diffs(script) && |orig| == |shown| && i < |orig| && orig[i] != shown[i]
    ensures var next := NextOf(shown, rewrite); var taken := Offered(orig, shown, next, script);
            && k <= |taken| && InOrder(taken[..k], i, |next|) && InOrder(taken[k..], |orig|, |next|)
            && (k < |taken| ==> i < taken[k].oldStart)
            && Patched(orig, next, taken, 0)
               == Patched(orig[..i], next, taken[..k], 0) + [orig[i]] + Patched(orig, next, taken[k..], i + 1)
  {
    var next := NextOf(shown, rewrite);
    var taken := Offered(orig, shown, next, script);
    hide NextOf, Offered;
    forall h | h in taken ensures !(h.oldStart <= i < h.OldEnd()) {
      assert SeenAsIs(h, orig, shown);
    }
    hide InOrder, Patched, Fits, SeenAsIs, AllHunks;
    k := PatchedAround(orig, next, taken, 0, i);
  }

  /** With nothing withheld and every hunk offered, the window becomes the rewrite. */
  lemma AllOffered(shown: seq<string>, rewrite: string, script: (seq<string>, seq<string>) -> seq<Op>)
    requires Diffs(script)
    ensures var next := NextOf(shown, rewrite); var taken := Offered(shown, shown, next, script);
            taken == AllHunks(shown, next, script) ==> Patched(shown, next, taken, 0) == next
  {
    var next := NextOf(shown, rewrite);
    hide NextOf, Offered;
    PatchedIsNew(shown, next, AllHunks(shown, next, script), 0, 0);
  }

  // ---------- No line runs into another ----------

  lemma FollowJoin(a: seq<string>, b: seq<string>)
    requires AllEnded(a) && Follow(b)
    ensures Follow(a + b) && (AllEnded(b) ==> AllEnded(a + b))
  {
    hide OneLine, Ended;
    assert forall i :: 0 <= i < |b| ==> (a + b)[|a| + i] == b[i];
  }

  /** Lines the hunk puts in are ended, unless it replaces the window's end; those kept before it are. */
  ghost predicate KeepsEnds(h: Hunk, orig: seq<string>, next: seq<string>) {
    && h.OldEnd() <= |orig| && h.NewEnd() <= |next|
    && (h.NewEnd() == |next| ==> h.OldEnd() == |orig|)
    && (h.OldEnd() == |orig| ==> h.oldCount > 0 || AllEnded(orig))
  }

  /** A hunk at the window's end leaves a last line that is ended where the window's was. */
  ghost predicate KeepsLast(h: Hunk, orig: seq<string>, next: seq<string>)
    requires orig != []
  {
    var ended := Ended(orig[|orig| - 1]);
    h.OldEnd() == |orig| ==>
      if h.newCount > 0 then h.NewEnd() == |next| && Ended(next[|next| - 1]) == ended
      else h.oldStart > 0 ==> ended
  }

  lemma {:induction false} PatchedFollow(orig: seq<string>, next: seq<string>, hunks: seq<Hunk>, from: nat)
    requires from <= |orig| && InOrder(hunks, |orig|, |next|) && (hunks != [] ==> from <= hunks[0].oldStart)
    requires Follow(orig) && Follow(next) && forall h :: h in hunks ==> KeepsEnds(h, orig, next)
    ensures Follow(Patched(orig, next, hunks, from))
    decreases |hunks|
  {
    hide Follow, AllEnded, Patched, InOrder;
    if hunks == [] {
      FollowSlice(orig, from, |orig|);
      assert orig[from..|orig|] == orig[from..];
      PatchedNone(orig, next, from);
    } else {
      var h := hunks[0];
      assert h in hunks && forall g :: g in hunks[1..] ==> g in hunks;
      PatchedFirst(orig, next, hunks, from);
      PatchedFollow(orig, next, hunks[1..], h.OldEnd());
      FollowSlice(orig, from, h.oldStart);
      FollowSlice(next, h.newStart, h.NewEnd());
      if h.OldEnd() == |orig| {
        NoneLeft(orig, next, hunks);
      }
      FollowThree(orig[from..h.oldStart], next[h.newStart..h.NewEnd()], Patched(orig, next, hunks[1..], h.OldEnd()));
    }
  }

  /** After a hunk that reaches the window's end there is nothing. */
  lemma NoneLeft(orig: seq<string>, next: seq<string>, hunks: seq<Hunk>)
    requires InOrder(hunks, |orig|, |next|) && hunks != [] && hunks[0].OldEnd() == |orig| && InOrder(hunks[1..], |orig|, |next|)
    ensures hunks[1..] == [] && Patched(orig, next, hunks[1..], |orig|) == []
  {
    InOrderFirst(hunks, |orig|, |next|);
    if hunks[1..] != [] {
      InOrderFirst(hunks[1..], |orig|, |next|);
      assert false;
    }
    hide InOrder;
    PatchedNone(orig, next, |orig|);
  }

  lemma {:induction false} PatchedLast(orig: seq<string>, next: seq<string>, hunks: seq<Hunk>, from: nat)
    requires from <= |orig| && InOrder(hunks, |orig|, |next|) && (hunks != [] ==> from <= hunks[0].oldStart)
    requires orig != [] && Follow(orig) && forall h :: h in hunks ==> KeepsLast(h, orig, next)
    ensures var w := Patched(orig, next, hunks, from);
            && (w != [] ==> Ended(w[|w| - 1]) == Ended(orig[|orig| - 1]))
            && (from < |orig| && (hunks != [] ==> from < hunks[0].oldStart) ==> w != [])
    decreases |hunks|
  {
    hide Ended, OneLine, Patched, InOrder;
    if hunks == [] {
      PatchedNone(orig, next, from);
    } else {
      var h := hunks[0];
      assert h in hunks && forall g :: g in hunks[1..] ==> g in hunks;
      InOrderFirst(hunks, |orig|, |next|);
      PatchedFirst(orig, next, hunks, from);
      PatchedLast(orig, next, hunks[1..], h.OldEnd());
      if h.OldEnd() == |orig| {
        NoneLeft(orig, next, hunks);
        assert KeepsLast(h, orig, next);
      }
    }
  }

  lemma FollowSlice(lines: seq<string>, i: nat, j: nat)
    requires Follow(lines) && i <= j <= |lines|
    ensures Follow(lines[i..j]) && (j < |lines| || AllEnded(lines) ==> AllEnded(lines[i..j]))
  {
    hide OneLine, Ended;
    assert forall k :: 0 <= k < j - i ==> lines[i..j][k] == lines[i + k];
  }

  lemma FollowThree(a: seq<string>, b: seq<string>, c: seq<string>)
    requires AllEnded(a) && Follow(b) && Follow(c) && (AllEnded(b) || c == [])
    ensures Follow(a + b + c)
  {
    hide Follow, AllEnded;
    FollowJoin(a, b);
    if AllEnded(b) {
      FollowJoin(a + b, c);
    } else {
      assert a + b + c == a + b;
    }
  }

  /** What an offered hunk makes of the ends of lines. */
  lemma OfferedEnds(orig: seq<string>, shown: seq<string>, rewrite: string, script: (seq<string>, seq<string>) -> seq<Op>, h: Hunk)
    requires Diffs(script) && |orig| == |shown| > 0 && Follow(orig) && Follow(shown)
    requires Ended(shown[|shown| - 1]) ==> Ended(orig[|orig| - 1])
    requires h in Offered(orig, shown, NextOf(shown, rewrite), script)
    ensures KeepsEnds(h, orig, NextOf(shown, rewrite)) && KeepsLast(h, orig, NextOf(shown, rewrite))
  {
    hide NextOf, Offered, AllHunks, OneLine, Ended, Separate, InOrder, SeenAsIs;
    var next := NextOf(shown, rewrite);
    var hunks := AllHunks(shown, next, script);
    assert Fits(h, shown, next);
    NextShape(shown, rewrite);
    OfferedReach(orig, shown, rewrite, script, h);
    if h.NewEnd() == |next| {
      EndsTogether(shown, next, hunks, 0, 0, h);
    }
    if h.OldEnd() == |shown| {
      EndsBoth(shown, next, hunks, 0, 0, h);
      if h.oldStart > 0 {
        KeptBefore(shown, next, hunks, 0, 0, h);
      }
    }
  }

  /** The window's lines with the offered hunks made follow one another, the last ended where the window's was. */
  lemma WindowFollows(orig: seq<string>, shown: seq<string>, rewrite: string, script: (seq<string>, seq<string>) -> seq<Op>)
    requires Diffs(script) && |orig| == |shown| > 0 && Follow(orig) && Follow(shown)
    requires Ended(shown[|shown| - 1]) ==> Ended(orig[|orig| - 1])
    ensures var next := NextOf(shown, rewrite); var window := Patched(orig, next, Offered(orig, shown, next, script), 0);
            Follow(window) && (window != [] ==> Ended(window[|window| - 1]) == Ended(orig[|orig| - 1]))
  {
    hide NextOf, Offered, OneLine, Ended, KeepsEnds, KeepsLast, Patched, InOrder, Fits, SeenAsIs, AllHunks;
    var next := NextOf(shown, rewrite);
    var taken := Offered(orig, shown, next, script);
    NextShape(shown, rewrite);
    forall h | h in taken ensures KeepsEnds(h, orig, next) && KeepsLast(h, orig, next) {
      OfferedEnds(orig, shown, rewrite, script, h);
    }
    hide Follow;
    PatchedFollow(orig, next, taken, 0);
    PatchedLast(orig, next, taken, 0);
  }

  /** Where a document's window follows whole lines, it is cut into those and the window's own, with what goes on after. */
  lemma CutDocument(before: seq<string>, window: seq<string>, rest: string)
    requires AllEnded(before) && Follow(window)
    ensures SplitLines(Concat(before) + Concat(window) + rest) == before + Continued(window, rest)
  {
    hide AllEnded, Follow, SplitLines, Concat, Continued;
    FollowJoin(before, window);
    ConcatJoin(before, window);
    SplitContinued(before + window, rest);
    ContinuedAfter(before, window, rest);
  }

  /**
   Cut into lines, the document is the lines before the window, the window's, and what
   follows, which goes on the window's last line if that is not ended. The edited
   document is the same with the offered hunks made in the window, and what follows goes
   on its last line if and only if it did before: no line has run into another, and none
   has been cut off from its end. (A last line the rewrite left empty is none.)
   */
  lemma NoLineRunsOn(before: seq<string>, orig: seq<string>, rest: string, shown: seq<string>, rewrite: string,
                     script: (seq<string>, seq<string>) -> seq<Op>)
    requires Diffs(script) && InDocument(before, orig, rest, shown) && shown != []
    requires Ended(shown[|shown| - 1]) ==> Ended(orig[|orig| - 1])
    ensures var next := NextOf(shown, rewrite); var taken := Offered(orig, shown, next, script);
            var edits := EditsOf(|before|, shown, next, taken); var text := Document(before, orig, rest);
            var window := Patched(orig, next, taken, 0);
            && Applicable(text, 0, edits)
            && SplitLines(text) == before + Continued(orig, rest)
            && SplitLines(Apply(text, 0, edits)) == before + Continued(window, rest)
            && (window != [] ==> Ended(window[|window| - 1]) == Ended(orig[|orig| - 1]))
            && (Ended(orig[|orig| - 1]) ==> SplitLines(Apply(text, 0, edits)) == before + window + SplitLines(rest))
  {
    hide NextOf, Offered, OneLine, Ended, Patched, SplitLines, Concat, Apply, Applicable, EditsOf;
    EditsApply(before, orig, rest, shown, rewrite, script);
    WindowFollows(orig, shown, rewrite, script);
    ConcatJoin(before, orig);
    CutDocument(before, orig, rest);
    var next := NextOf(shown, rewrite);
    var window := Patched(orig, next, Offered(orig, shown, next, script), 0);
    CutDocument(before, window, rest);
    EndedWindow(before, orig, window, rest);
  }

  lemma EndedWindow(before: seq<string>, orig: seq<string>, window: seq<string>, rest: string)
    requires orig != [] && Follow(window) && (window != [] ==> Ended(window[|window| - 1]) == Ended(orig[|orig| - 1]))
    ensures Ended(orig[|orig| - 1]) ==> before + Continued(window, rest) == before + window + SplitLines(rest)
  {
    hide Ended, OneLine, SplitLines;
    if Ended(orig[|orig| - 1]) && window != [] {
      ContinuedEnded(window, rest);
    }
    hide Continued;
    GroupLines(before, window, SplitLines(rest));
  }

  lemma GroupLines(a: seq<string>, b: seq<string>, c: seq<string>)
    ensures a + (b + c) == a + b + c && (b == [] ==> a + b + c == a + c)
  {
  }

  // ---------- A window with no lines ----------

  /**
   A window with no lines (its first was too long to show) is the exception: the rewrite
   is put in as it is, and what follows stays on lines of its own exactly when there is
   nothing after it, or the rewrite's last line is ended or empty.
   */
  lemma EmptyWindow(before: seq<string>, rest: string, rewrite: string, script: (seq<string>, seq<string>) -> seq<Op>)
    requires Diffs(script) && AllEnded(before)
    ensures var next := NextOf([], rewrite); var text := Document(before, [], rest);
            var edits := EditsOf(|before|, [], next, Offered([], [], next, script));
            && Applicable(text, 0, edits)
            && Apply(text, 0, edits) == Concat(before) + Concat(next) + rest
            && (SplitLines(Apply(text, 0, edits)) == before + SplitLines(Concat(next)) + SplitLines(rest)
                <==> rest == "" || next == [] || next[|next| - 1] == "" || Ended(next[|next| - 1]))
  {
    hide NextOf, AllHunks, Offered, Patched, InOrder, OneLine, Ended, SplitLines, Concat, Apply, Applicable, EditsOf;
    var next := NextOf([], rewrite);
    NextShape([], rewrite);
    EmptyOffered(next, script);
    AllOffered([], rewrite, script);
    EditsApply(before, [], rest, [], rewrite, script);
    CutDocument(before, next, rest);
    GoesOn(before, next, rest);
  }

  /** What follows lines is cut off from them unless it goes on the last. */
  lemma GoesOn(before: seq<string>, lines: seq<string>, rest: string)
    requires Follow(lines)
    ensures before + Continued(lines, rest) == before + SplitLines(Concat(lines)) + SplitLines(rest)
            <==> rest == "" || lines == [] || lines[|lines| - 1] == "" || Ended(lines[|lines| - 1])
  {
    hide Follow, Ended, SplitLines, Concat, Continued;
    SplitOfConcat(lines);
    OneSplit("");
    if lines == [] {
      GroupLines(before, [], SplitLines(rest));
      ContinuedNone(rest);
    } else {
      var last, init := lines[|lines| - 1], lines[..|lines| - 1];
      ContinuedLast(lines, rest);
      LastGoesOn(lines, rest);
      var own := if last == "" then [] else [last];
      assert SplitLines(Concat(lines)) == init + own;
      GroupLines(before, init + own, SplitLines(rest));
      GroupLines(init, own, SplitLines(rest));
      Cancels(before, init, SplitLines(last + rest), own + SplitLines(rest));
    }
  }

  lemma ContinuedNone(rest: string)
    ensures Continued([], rest) == SplitLines(rest)
  {
  }

  lemma ContinuedLast(lines: seq<string>, rest: string)
    requires lines != []
    ensures Continued(lines, rest) == lines[..|lines| - 1] + SplitLines(lines[|lines| - 1] + rest)
    ensures lines == lines[..|lines| - 1] + [lines[|lines| - 1]] && lines[..|lines| - 1] + [] == lines[..|lines| - 1]
  {
    hide SplitLines;
  }

  lemma Cancels(a: seq<string>, b: seq<string>, c: seq<string>, d: seq<string>)
    ensures a + (b + c) == a + (b + d) <==> c == d
  {
    if a + (b + c) == a + (b + d) {
      assert (a + (b + c))[|a| + |b|..] == c && (a + (b + d))[|a| + |b|..] == d;
    }
  }

  lemma NoneBefore(lines: seq<string>)
    ensures [] + lines == lines == lines + []
  {
  }

  lemma LastGoesOn(lines: seq<string>, rest: string)
    requires Follow(lines) && lines != []
    ensures var last := lines[|lines| - 1];
            && (last == "" ==> SplitLines(last + rest) == SplitLines(rest) == [] + SplitLines(rest))
            && (last != "" ==> (SplitLines(last + rest) == [last] + SplitLines(rest) <==> rest == "" || Ended(last)))
  {
    var last := lines[|lines| - 1];
    assert OneLine(last);
    hide Follow, Ended, OneLine, SplitLines;
    OneSplit("");
    if Ended(last) {
      EndedSome(last);
      SplitOfCons(last, rest);
    } else if last == "" {
      assert last + rest == rest;
      NoneBefore(SplitLines(rest));
    } else if rest == "" {
      assert last + rest == last;
      OneSplit(last);
      NoneBefore([last]);
    } else {
      RunsOn(last, rest);
    }
  }

  lemma EndedSome(line: string)
    requires Ended(line)
    ensures line != ""
  {
  }

  /** One such: `x` put in before the line `b` gives the one line `xb`, under any script. */
  lemma EmptyWindowRunsOn(script: (seq<string>, seq<string>) -> seq<Op>)
    requires Diffs(script)
    ensures var next := NextOf([], "x"); var edits := EditsOf(0, [], next, Offered([], [], next, script));
            Applicable("b\n", 0, edits) && Apply("b\n", 0, edits) == "xb\n" && SplitLines("xb\n") == ["xb\n"]
  {
    NextOfX();
    hide NextOf, Offered, Apply, Applicable, EditsOf, Diffs, SplitLines, Ended;
    EmptyWindow([], "b\n", "x", script);
    OneSplit("xb\n");
    DocumentB();
  }

  lemma NextOfX()
    ensures NextOf([], "x") == ["x"]
  {
    OneSplit("x");
    NoneWritten();
    NormalX();
    hide SplitLines, AsWritten, Eol, NormalLines;
  }

  lemma NoneWritten()
    ensures AsWritten([]) == map[] && Eol([]) == "\n"
  {
  }

  lemma NormalX()
    ensures NormalLines(["x"], map[], "\n") == ["x"]
  {
    BareX();
    hide Bare, Ended;
    assert NormalLine("x", map[], "\n") == "x";
    hide NormalLine;
  }

  lemma BareX()
    ensures Bare("x") == "x" && !Ended("x")
  {
    assert "x"[0..][0] == 'x';
    assert !HasSuffix("x", "\n") && !HasSuffix("x", "\r");
    hide HasSuffix;
    assert TrimSuffix(TrimSuffix("x", "\n"), "\r") == "x";
    hide TrimSuffix;
    assert !BarSpace('x') && TrimRight("x", BarSpace) == "x";
  }

  lemma DocumentB()
    ensures Document([], [], "b\n") == "b\n" && Concat([]) + Concat(["x"]) + "b\n" == "xb\n"
  {
    ConcatOne("x");
    ConcatNone();
    var none: seq<string> := [];
    assert none + none == none;
    hide Concat;
  }

  /** Replacing every line is an edit script for any two runs of lines. */
  lemma ReplaceAllDiffs()
    ensures Diffs((a, b) => ReplaceAll(|a|, |b|))
  {
    forall a: seq<string>, b: seq<string> ensures Script(ReplaceAll(|a|, |b|), a, b, 0, 0) {
      ReplaceAllTurns(a, b, 0, 0);
    }
  }

  lemma EmptyOffered(next: seq<string>, script: (seq<string>, seq<string>) -> seq<Op>)
    requires Diffs(script)
    ensures Offered([], [], next, script) == AllHunks([], next, script)
  {
    var hunks := AllHunks([], next, script);
    hide AllHunks;
    if hunks != [] {
      assert hunks[0] in hunks && Fits(hunks[0], [], next);
      assert forall i :: 0 <= i < |hunks| ==> hunks[i] in hunks && hunks[i].OldEnd() == 0;
      assert hunks == [hunks[0]];
      var h := hunks[0];
      assert Separate([], next, hunks, 0, 0) && h.newCount > 0;
      assert IsVisible(h, [], next);
      assert Visible(hunks, [], next) == [h] + Visible([], [], next);
      assert SeenAsIs(h, [], []) && Seen([h], [], []) == [h] + Seen([], [], []) by {
        assert [h][1..] == [];
      }
    }
  }
}
