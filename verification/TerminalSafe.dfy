/**
 What a command's output may draw in the lines-mode terminal: text, line ends, tabs
 and colour. Output comes decoded: a character, or a stray byte that is part of none.
 */
module TerminalSafe {
  import opened Basics

  datatype Decoded = Rune(c: char) | Stray

  const Esc := '\U{1b}'
  const Replacement := '\U{fffd}'

  function Decode(t: string): (s: seq<Decoded>)
    ensures |s| == |t| && forall i :: 0 <= i < |t| ==> s[i] == Rune(t[i])
  {
    seq(|t|, i requires 0 <= i < |t| => Rune(t[i]))
  }

  /** The characters of a colour sequence between its `ESC [` and its `m`. */
  predicate Parameter(c: char) {
    '0' <= c <= '9' || c == ';' || c == ':'
  }

  predicate Control(c: char) {
    c < ' ' || '\U{7f}' <= c <= '\U{9f}'
  }

  /** The parameters at the front of `s`. */
  function Parameters(s: seq<Decoded>): (n: nat)
    ensures n <= |s|
    ensures forall k :: 0 <= k < n ==> s[k].Rune? && Parameter(s[k].c)
    ensures n < |s| && s[n].Rune? ==> !Parameter(s[n].c)
  {
    if s != [] && s[0].Rune? && Parameter(s[0].c) then 1 + Parameters(s[1..]) else 0
  }

  /** The length of the colour sequence `s` starts with, 0 when it starts with none. */
  function SgrLength(s: seq<Decoded>): (n: nat)
    ensures n <= |s|
    ensures n > 0 ==> n >= 3 && forall k :: 0 <= k < n ==> s[k].Rune?
  {
    if |s| >= 2 && s[0] == Rune(Esc) && s[1] == Rune('[') then
      var k := Parameters(s[2..]);
      if 2 + k < |s| && s[2 + k] == Rune('m') then 3 + k else 0
    else 0
  }

  /** The text of decoded characters. */
  function Text(s: seq<Decoded>): (t: string)
    requires forall k :: 0 <= k < |s| ==> s[k].Rune?
    ensures |t| == |s| && forall k :: 0 <= k < |s| ==> t[k] == s[k].c
  {
    seq(|s|, i requires 0 <= i < |s| => s[i].c)
  }

  function HexDigit(n: nat): char
    requires n < 16
  {
    if n < 10 then '0' + n as char else 'A' + (n - 10) as char
  }

  /** A control character from U+0080 up, spelled out. */
  function Spelled(c: char): string
    requires '\U{80}' <= c <= '\U{9f}'
  {
    "\U{27e8}U+00" + [HexDigit(c as int / 16), HexDigit(c as int % 16), '\U{27e9}']
  }

  /** What the first of `s` is shown as, when it does not start a colour sequence. */
  function Shown(s: seq<Decoded>): (t: string)
    requires s != []
    ensures t != []
  {
    if s[0].Stray? then [Replacement]
    else
      var c := s[0].c;
      if c == Esc then ['\U{241b}']
      else if c == '\r' && !([Rune('\n')] <= s[1..]) then ['\n']
      else if c == '\t' || c == '\n' || c == '\r' then [c]
      else if c < ' ' then ['\U{2400}' + c]
      else if c == '\U{7f}' then ['\U{2421}']
      else if '\U{80}' <= c <= '\U{9f}' then Spelled(c)
      else [c]
  }

  function Safe(s: seq<Decoded>): string
    decreases |s|
  {
    if s == [] then []
    else if SgrLength(s) > 0 then Text(s[..SgrLength(s)]) + Safe(s[SgrLength(s)..])
    else Shown(s) + Safe(s[1..])
  }

  method TerminalSafe(s: seq<Decoded>) returns (b: string)
    ensures b == Safe(s)
    ensures Shows(b)
  {
    hide Safe, Shown, SgrLength, Text, Shows;
    b := [];
    var i := 0;
    assert s[0..] == s;
    while i < |s|
      invariant 0 <= i <= |s|
      invariant Safe(s) == b + Safe(s[i..])
    {
      SafeAt(s, i);
      var n := SgrLength(s[i..]);
      if n > 0 {
        b := b + Text(s[i..i + n]);
        i := i + n;
      } else {
        b := b + Shown(s[i..]);
        i := i + 1;
      }
    }
    SafeAt(s, i);
    SafeShows(s);
  }

  lemma SafeAt(s: seq<Decoded>, i: nat)
    requires i <= |s|
    ensures var n := SgrLength(s[i..]);
            Safe(s[i..]) == if i == |s| then []
                            else if n > 0 then Text(s[i..i + n]) + Safe(s[i + n..])
                            else Shown(s[i..]) + Safe(s[i + 1..])
  {
    hide Shown, Text, SgrLength;
    var n := SgrLength(s[i..]);
    assert s[i..][..n] == s[i..i + n] && s[i..][n..] == s[i + n..];
    assert i < |s| ==> s[i..][1..] == s[i + 1..];
  }

  // ---------- The language the output is in ----------

  /** A colour sequence of `n` characters starts at `i`. */
  predicate SgrAt(t: string, i: nat, n: nat) {
    && n >= 3 && i + n <= |t|
    && t[i] == Esc && t[i + 1] == '[' && t[i + n - 1] == 'm'
    && forall k :: i + 2 <= k < i + n - 1 ==> Parameter(t[k])
  }

  /** The character at `i` draws text, ends a line, or starts a colour sequence. */
  ghost predicate ShowsAt(t: string, i: nat)
    requires i < |t|
  {
    || t[i] == '\t' || t[i] == '\n' || !Control(t[i])
    || (t[i] == '\r' && i + 1 < |t| && t[i + 1] == '\n')
    || exists n :: SgrAt(t, i, n)
  }

  ghost predicate Shows(t: string) {
    forall i :: 0 <= i < |t| ==> ShowsAt(t, i)
  }

  lemma ShowsShift(a: string, t: string, i: nat)
    requires i < |t| && ShowsAt(t, i)
    ensures ShowsAt(a + t, |a| + i)
  {
    if n: nat :| SgrAt(t, i, n) {
      assert SgrAt(a + t, |a| + i, n);
    }
  }

  /** Text that shows before a tail that shows, where a last carriage return meets a newline. */
  lemma ShowsJoin(a: string, t: string)
    requires Shows(t)
    requires forall i :: 0 <= i < |a| ==> ShowsAt(a + t, i)
    ensures Shows(a + t)
  {
    forall i | 0 <= i < |a + t| ensures ShowsAt(a + t, i) {
      if i >= |a| {
        ShowsShift(a, t, i - |a|);
      }
    }
  }

  lemma ShownFirst(s: seq<Decoded>)
    requires s != [] && SgrLength(s) == 0
    ensures forall i :: 0 <= i < |Shown(s)| ==>
              !Control(Shown(s)[i]) || Shown(s)[i] == '\t' || Shown(s)[i] == '\n'
              || (Shown(s) == "\r" && |s| > 1 && s[1] == Rune('\n'))
  {
  }

  lemma SgrText(s: seq<Decoded>)
    requires SgrLength(s) > 0
    ensures SgrAt(Text(s[..SgrLength(s)]), 0, SgrLength(s))
  {
    var n := SgrLength(s);
    var t := Text(s[..n]);
    forall k | 2 <= k < n - 1 ensures Parameter(t[k]) {
      assert s[2..][k - 2] == s[k];
    }
  }

  /** Whatever a command writes, the terminal is given only text, line ends, tabs and colour. */
  lemma {:induction false} SafeShows(s: seq<Decoded>)
    ensures Shows(Safe(s))
    decreases |s|
  {
    if s == [] {
    } else if SgrLength(s) > 0 {
      var n := SgrLength(s);
      var a, t := Text(s[..n]), Safe(s[n..]);
      SafeShows(s[n..]);
      SgrText(s);
      assert SgrAt(a + t, 0, n);
      forall i | 0 <= i < n ensures ShowsAt(a + t, i) {
        assert (a + t)[i] == a[i];
      }
      ShowsJoin(a, t);
    } else {
      var a, t := Shown(s), Safe(s[1..]);
      SafeShows(s[1..]);
      ShownFirst(s);
      if a == "\r" {
        assert t[0] == '\n';
      }
      ShowsJoin(a, t);
    }
  }

  lemma SgrFound(t: string, n: nat)
    requires SgrAt(t, 0, n)
    ensures SgrLength(Decode(t)) == n
  {
    var s := Decode(t);
    assert s[2..][n - 3] == Rune('m');
    assert forall k :: 0 <= k < n - 3 ==> s[2..][k] == Rune(t[2 + k]) && Parameter(t[2 + k]);
  }

  lemma ShowsTail(t: string, n: nat)
    requires n <= |t| && Shows(t)
    ensures Shows(t[n..])
  {
    forall i | 0 <= i < |t[n..]| ensures ShowsAt(t[n..], i) {
      var j := n + i;
      assert ShowsAt(t, j);
      if m: nat :| SgrAt(t, j, m) {
        assert SgrAt(t[n..], i, m);
      }
    }
  }

  lemma ShownKept(t: string)
    requires t != [] && ShowsAt(t, 0) && t[0] != Esc
    ensures Shown(Decode(t)) == [t[0]] && SgrLength(Decode(t)) == 0
  {
    var s := Decode(t);
    assert t[0] == '\r' ==> s[1..][0] == Rune('\n');
  }

  lemma {:induction false} ShowsKept(t: string)
    requires Shows(t)
    ensures Safe(Decode(t)) == t
    decreases |t|
  {
    hide Shown, SgrLength, Safe, Shows, ShowsAt, SgrAt;
    if t == [] {
      SafeNone();
    } else {
      ShowsFirst(t);
      if n: nat :| SgrAt(t, 0, n) {
        SgrFound(t, n);
        ShowsTail(t, n);
        ShowsKept(t[n..]);
        SafeSgr(t, n);
      } else {
        ShownKept(t);
        ShowsTail(t, 1);
        ShowsKept(t[1..]);
        SafeShown(t);
      }
    }
  }

  lemma SafeNone()
    ensures Decode([]) == [] && Safe([]) == []
  {
  }

  lemma ShowsFirst(t: string)
    requires Shows(t) && t != []
    ensures ShowsAt(t, 0) && forall n: nat :: SgrAt(t, 0, n) ==> 0 < n <= |t|
    ensures (exists n: nat :: SgrAt(t, 0, n)) || t[0] != Esc
  {
    assert ShowsAt(t, 0);
  }

  lemma SafeSgr(t: string, n: nat)
    requires 0 < n <= |t| && SgrLength(Decode(t)) == n && Safe(Decode(t[n..])) == t[n..]
    ensures Safe(Decode(t)) == t
  {
    hide SgrLength;
    var s := Decode(t);
    assert s[n..] == Decode(t[n..]) && Text(s[..n]) == t[..n];
    assert t[..n] + t[n..] == t;
  }

  lemma SafeShown(t: string)
    requires t != [] && SgrLength(Decode(t)) == 0 && Shown(Decode(t)) == [t[0]] && Safe(Decode(t[1..])) == t[1..]
    ensures Safe(Decode(t)) == t
  {
    hide SgrLength, Shown;
    assert Decode(t)[1..] == Decode(t[1..]);
  }

  /** Output is left as it is exactly when it already draws only text, line ends, tabs and colour. */
  lemma SafeKeepsSafe(t: string)
    ensures Safe(Decode(t)) == t <==> Shows(t)
  {
    SafeShows(Decode(t));
    if Shows(t) {
      ShowsKept(t);
    }
  }

  /** Made safe twice is made safe once. */
  lemma {:induction false} SafeTwice(s: seq<Decoded>)
    ensures Safe(Decode(Safe(s))) == Safe(s)
  {
    SafeShows(s);
    ShowsKept(Safe(s));
  }

  // ---------- Line ends ----------

  /** Every occurrence of `was` in `s`, leftmost first and not overlapping, replaced. */
  function ReplaceAll(s: string, was: string, now: string): string
    requires was != []
    decreases |s|
  {
    if |s| < |was| then s
    else if was <= s then now + ReplaceAll(s[|was|..], was, now)
    else [s[0]] + ReplaceAll(s[1..], was, now)
  }

  const CrLf := "\r\n"

  function Crlf(s: seq<Decoded>): string {
    var b := ReplaceAll(ReplaceAll(Safe(s), CrLf, "\n"), "\n", CrLf);
    if |b| > 0 && !HasSuffix(b, CrLf) then b + CrLf else b
  }

  /** `t` without its carriage returns. */
  function NoCr(t: string): string {
    if t == [] then [] else (if t[0] == '\r' then [] else [t[0]]) + NoCr(t[1..])
  }

  /** `t` with a carriage return before every newline. */
  function Returned(t: string): string {
    if t == [] then [] else (if t[0] == '\n' then CrLf else [t[0]]) + Returned(t[1..])
  }

  lemma {:induction false} NoCrJoin(a: string, b: string)
    ensures NoCr(a + b) == NoCr(a) + NoCr(b)
    decreases |a|
  {
    if a == [] {
      assert a + b == b;
    } else {
      assert (a + b)[1..] == a[1..] + b;
      NoCrJoin(a[1..], b);
    }
  }

  lemma {:induction false} ReplaceCrLf(t: string)
    requires Shows(t)
    ensures ReplaceAll(t, CrLf, "\n") == NoCr(t)
    decreases |t|
  {
    if t == [] {
    } else {
      assert ShowsAt(t, 0);
      ShowsTail(t, 1);
      assert t[0] == '\r' ==> t[..2] == CrLf;
      if CrLf <= t {
        ShowsTail(t, 2);
        ReplaceCrLf(t[2..]);
        assert t[1..][1..] == t[2..];
      } else {
        if |t| == 1 {
          assert t[1..] == [];
        } else {
          ReplaceCrLf(t[1..]);
        }
      }
    }
  }

  lemma {:induction false} ReplaceLf(t: string)
    ensures ReplaceAll(t, "\n", CrLf) == Returned(t)
    decreases |t|
  {
    if t == [] {
    } else {
      ReplaceLf(t[1..]);
      if t[0] == '\n' {
        assert t[..1] == "\n";
      }
    }
  }

  lemma {:induction false} ReturnedJoin(a: string, b: string)
    ensures Returned(a + b) == Returned(a) + Returned(b)
    decreases |a|
  {
    if a == [] {
      assert a + b == b;
    } else {
      assert (a + b)[1..] == a[1..] + b;
      ReturnedJoin(a[1..], b);
    }
  }

  lemma {:induction false} ReturnedBack(t: string)
    requires '\r' !in t
    ensures NoCr(Returned(t)) == t
    decreases |t|
  {
    if t != [] {
      ReturnedBack(t[1..]);
      var a := if t[0] == '\n' then CrLf else [t[0]];
      NoCrJoin(a, Returned(t[1..]));
      assert CrLf[1..] == "\n" && "\n"[1..] == "";
      assert [t[0]][1..] == "";
    }
  }

  lemma {:induction false} ReturnedEnd(t: string)
    requires '\r' !in t
    ensures HasSuffix(Returned(t), CrLf) <==> t != [] && t[|t| - 1] == '\n'
    ensures Returned(t) == [] <==> t == []
  {
    if t != [] {
      LastReturned(t);
      assert CrLf[1] == '\n';
    }
  }

  /** The text comes back a line end at a time, so it ends as its last character says. */
  lemma {:induction false} LastReturned(t: string)
    requires t != []
    ensures var r := Returned(t); var last := if t[|t| - 1] == '\n' then CrLf else [t[|t| - 1]];
            |r| >= |last| && r[|r| - |last|..] == last
  {
    var init, end := t[..|t| - 1], [t[|t| - 1]];
    assert t == init + end;
    ReturnedJoin(init, end);
    assert end[1..] == [];
    assert Returned(end) == if t[|t| - 1] == '\n' then CrLf else end;
  }

  lemma {:induction false} NoCrHasNone(t: string)
    ensures '\r' !in NoCr(t)
  {
    if t != [] {
      NoCrHasNone(t[1..]);
    }
  }

  /** The text `crlf` ends lines in: what is safe, without carriage returns, its last line ended. */
  function Ended(t: string): string {
    if t == [] || t[|t| - 1] == '\n' then t else t + "\n"
  }

  /** What crlf gives is its safe text, each line end a carriage return and a newline, and the last line ended. */
  lemma {:induction false} CrlfIs(s: seq<Decoded>)
    ensures Crlf(s) == Returned(Ended(NoCr(Safe(s))))
  {
    SafeShows(s);
    var t := NoCr(Safe(s));
    ReplaceCrLf(Safe(s));
    ReplaceLf(t);
    NoCrHasNone(Safe(s));
    ReturnedEnd(t);
    ReturnedJoin(t, "\n");
    assert Returned("\n") == CrLf by {
      assert "\n"[1..] == "";
    }
  }

  /** Every newline follows a carriage return, and every carriage return comes before a newline. */
  ghost predicate LineEnds(t: string) {
    && (forall i :: 0 <= i < |t| && t[i] == '\n' ==> i > 0 && t[i - 1] == '\r')
    && (forall i :: 0 <= i < |t| && t[i] == '\r' ==> i + 1 < |t| && t[i + 1] == '\n')
  }

  lemma {:induction false} ReturnedLineEnds(t: string)
    requires '\r' !in t
    ensures LineEnds(Returned(t))
  {
    if t != [] {
      ReturnedLineEnds(t[1..]);
      var a, r := if t[0] == '\n' then CrLf else [t[0]], Returned(t[1..]);
      assert Returned(t) == a + r;
      forall i | 0 <= i < |a + r|
        ensures (a + r)[i] == '\n' ==> i > 0 && (a + r)[i - 1] == '\r'
        ensures (a + r)[i] == '\r' ==> i + 1 < |a + r| && (a + r)[i + 1] == '\n'
      {
        if i >= |a| {
          assert (a + r)[i] == r[i - |a|];
        }
      }
    }
  }

  /**
   What a terminal is sent for a command's output: only text, tabs, colour and whole
   line ends, ending a line unless it is empty, and empty only for no output. Apart
   from line ends it is the safe text, and sending it again changes nothing.
   */
  lemma CrlfSent(s: seq<Decoded>)
    ensures Shows(Crlf(s)) && LineEnds(Crlf(s))
    ensures Crlf(s) == [] <==> s == []
    ensures Crlf(s) != [] ==> HasSuffix(Crlf(s), CrLf)
    ensures NoCr(Crlf(s)) == Ended(NoCr(Safe(s)))
    ensures Crlf(Decode(Crlf(s))) == Crlf(s)
  {
    var t := NoCr(Safe(s));
    CrlfIs(s);
    NoCrHasNone(Safe(s));
    ReturnedBack(Ended(t));
    ReturnedEnd(Ended(t));
    ReturnedLineEnds(Ended(t));
    SafeShows(s);
    NoCrShows(Safe(s));
    assert Shows(Ended(t)) by {
      if Ended(t) != t {
        ShowsJoinAll(t, "\n");
      }
    }
    ReturnedShows(Ended(t));
    if s != [] {
      SafeNotEmpty(s);
    }
    CrlfIs(Decode(Crlf(s)));
    ShowsKept(Crlf(s));
  }

  lemma SafeNotEmpty(s: seq<Decoded>)
    requires s != []
    ensures NoCr(Safe(s)) != []
  {
    SafeShows(s);
    var t := Safe(s);
    assert t != [];
    assert ShowsAt(t, 0);
    if t[0] == '\r' {
      assert t[1..][0] == '\n';
    }
  }

  lemma ShowsJoinAll(a: string, t: string)
    requires Shows(a) && Shows(t)
    ensures Shows(a + t)
  {
    forall i | 0 <= i < |a| ensures ShowsAt(a + t, i) {
      assert ShowsAt(a, i);
      if n: nat :| SgrAt(a, i, n) {
        assert SgrAt(a + t, i, n);
      }
    }
    ShowsJoin(a, t);
  }

  /** The front of `t` that shows together: a colour sequence, a line end, or one character. */
  lemma Fronts(t: string) returns (n: nat)
    requires t != [] && Shows(t)
    ensures 0 < n <= |t|
    ensures SgrAt(t, 0, n) || (n == 2 && t[..2] == CrLf) || (n == 1 && (!Control(t[0]) || t[0] == '\t' || t[0] == '\n'))
  {
    assert ShowsAt(t, 0);
    if k: nat :| SgrAt(t, 0, k) {
      n := k;
    } else if t[0] == '\r' {
      n := 2;
    } else {
      n := 1;
    }
  }

  lemma {:induction false} SgrAlone(a: string)
    requires SgrAt(a, 0, |a|)
    ensures Shows(a) && NoCr(a) == a && Returned(a) == a
  {
    forall i | 0 <= i < |a| ensures ShowsAt(a, i) && a[i] != '\r' && a[i] != '\n' {
      if i == 0 {
        assert SgrAt(a, 0, |a|);
      }
    }
    NoneToChange(a);
  }

  lemma {:induction false} NoneToChange(a: string)
    requires forall i :: 0 <= i < |a| ==> a[i] != '\r' && a[i] != '\n'
    ensures NoCr(a) == a && Returned(a) == a
  {
    if a != [] {
      NoneToChange(a[1..]);
    }
  }

  lemma {:induction false} NoCrShows(t: string)
    requires Shows(t)
    ensures Shows(NoCr(t))
    decreases |t|
  {
    if t != [] {
      var n := Fronts(t);
      ShowsTail(t, n);
      NoCrShows(t[n..]);
      var a := t[..n];
      assert t == a + t[n..];
      NoCrJoin(a, t[n..]);
      if SgrAt(t, 0, n) {
        assert SgrAt(a, 0, |a|);
        SgrAlone(a);
      } else {
        assert Shows(NoCr(a)) by {
          if n == 2 {
            assert a == CrLf && CrLf[1..] == "\n" && "\n"[1..] == "";
          } else {
            assert a == [t[0]] && a[1..] == "";
          }
        }
      }
      ShowsJoinAll(NoCr(a), NoCr(t[n..]));
    }
  }

  lemma {:induction false} ReturnedShows(t: string)
    requires Shows(t) && '\r' !in t
    ensures Shows(Returned(t))
    decreases |t|
  {
    if t != [] {
      var n := Fronts(t);
      ShowsTail(t, n);
      ReturnedShows(t[n..]);
      var a := t[..n];
      assert t == a + t[n..];
      ReturnedJoin(a, t[n..]);
      if SgrAt(t, 0, n) {
        assert SgrAt(a, 0, |a|);
        SgrAlone(a);
      } else {
        assert t[0] in t && n == 1;
        assert a == [t[0]] && a[1..] == "";
      }
      ShowsJoinAll(Returned(a), Returned(t[n..]));
    }
  }

  // ---------- Nothing drawn is drawn over ----------

  /** A place on the screen, rows first. */
  datatype Place = Place(row: nat, column: nat) {
    predicate Before(p: Place) {
      row < p.row || (row == p.row && column < p.column)
    }
  }

  /**
   Where each character of `t` is drawn on a screen as wide as need be, from `at`: a
   newline goes down, a carriage return to the row's start, a tab to the next stop,
   and a colour sequence nowhere.
   */
  ghost function Drawn(t: string, at: Place): seq<Place>
    decreases |t|
  {
    if t == [] then []
    else if SgrLength(Decode(t)) > 0 then Drawn(t[SgrLength(Decode(t))..], at)
    else if t[0] == '\n' then Drawn(t[1..], at.(row := at.row + 1))
    else if t[0] == '\r' then Drawn(t[1..], at.(column := 0))
    else if t[0] == '\t' then Drawn(t[1..], at.(column := (at.column / 8 + 1) * 8))
    else [at] + Drawn(t[1..], at.(column := at.column + 1))
  }

  lemma DrawnCrLf(t: string, at: Place)
    requires |t| >= 2 && t[..2] == CrLf
    ensures Drawn(t, at) == Drawn(t[2..], Place(at.row + 1, 0))
  {
    hide Drawn;
    TwoEnds(t);
    DrawnReturn(t, at);
    DrawnFeed(t[1..], Place(at.row, 0));
  }

  lemma TwoEnds(t: string)
    requires |t| >= 2 && t[..2] == CrLf
    ensures t[0] == '\r' && t[1..][0] == '\n' && t[1..][1..] == t[2..]
  {
    assert t[..2][0] == t[0] && t[..2][1] == t[1];
  }

  lemma DrawnReturn(t: string, at: Place)
    requires t != [] && t[0] == '\r'
    ensures Drawn(t, at) == Drawn(t[1..], Place(at.row, 0))
  {
    NoSgrEnd(t);
    hide SgrLength, Decode;
  }

  lemma DrawnFeed(t: string, at: Place)
    requires t != [] && t[0] == '\n'
    ensures Drawn(t, at) == Drawn(t[1..], Place(at.row + 1, at.column))
  {
    NoSgrEnd(t);
    hide SgrLength, Decode;
  }

  lemma NoSgrEnd(t: string)
    requires t != [] && (t[0] == '\r' || t[0] == '\n')
    ensures SgrLength(Decode(t)) == 0
  {
  }

  lemma {:induction false} DrawnAfter(t: string, at: Place)
    requires Shows(t)
    ensures forall i :: 0 <= i < |Drawn(t, at)| ==> !Drawn(t, at)[i].Before(at)
    ensures forall i, j :: 0 <= i < j < |Drawn(t, at)| ==> Drawn(t, at)[i].Before(Drawn(t, at)[j])
    decreases |t|
  {
    hide Shows, ShowsAt;
    if t != [] {
      var n := Fronts(t);
      ShowsTail(t, n);
      if SgrAt(t, 0, n) {
        SgrFound(t, n);
        DrawnAfter(t[n..], at);
      } else if n == 2 {
        DrawnCrLf(t, at);
        DrawnAfter(t[2..], Place(at.row + 1, 0));
      } else if t[0] == '\n' {
        DrawnAfter(t[1..], at.(row := at.row + 1));
      } else if t[0] == '\t' {
        DrawnAfter(t[1..], at.(column := (at.column / 8 + 1) * 8));
      } else {
        DrawnAfter(t[1..], at.(column := at.column + 1));
      }
    }
  }

  /** Output sent to the terminal draws only past the cursor, and no character over another. */
  lemma NeverDrawnOver(s: seq<Decoded>, at: Place)
    ensures forall i :: 0 <= i < |Drawn(Crlf(s), at)| ==> !Drawn(Crlf(s), at)[i].Before(at)
    ensures forall i, j :: 0 <= i < j < |Drawn(Crlf(s), at)| ==> Drawn(Crlf(s), at)[i].Before(Drawn(Crlf(s), at)[j])
  {
    CrlfSent(s);
    DrawnAfter(Crlf(s), at);
  }
}
