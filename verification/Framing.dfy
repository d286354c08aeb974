/**
 Reading the connection line by line: a buffered reader hands the stream over in
 pieces of any size, and what a line has over the limit is skipped, up to its newline.
 */
module Framing {
  import opened Basics

  type Bytes = seq<byte>

  const LF: byte := 10
  const CR: byte := 13
  const HeadMax := 64 * 1024

  /** How the stream ends: cleanly, or with a read that fails. */
  datatype Ending = Eof | Broken

  predicate NoLF(s: Bytes) {
    LF !in s
  }

  // ---------- Lines, without any buffer ----------

  predicate Terminated(s: Bytes) {
    FirstAt(s, LF) < |s|
  }

  /** The first line, with its newline where it has one. */
  function Raw(s: Bytes): (r: Bytes)
    ensures r <= s && (s != [] ==> r != [])
  {
    if Terminated(s) then s[..FirstAt(s, LF) + 1] else s
  }

  /** A line without the line ends at its end. */
  function Trim(s: Bytes): (r: Bytes)
    ensures r <= s
    ensures r != [] ==> r[|r| - 1] != LF && r[|r| - 1] != CR
  {
    if s != [] && (s[|s| - 1] == LF || s[|s| - 1] == CR) then Trim(s[..|s| - 1]) else s
  }

  predicate Over(raw: Bytes, max: nat) {
    |raw| > max + 2 || |Trim(raw)| > max
  }

  function RawLines(s: Bytes): (ls: seq<Bytes>)
    decreases |s|
  {
    if s == [] then [] else [Raw(s)] + RawLines(s[|Raw(s)|..])
  }

  /** What a line comes to: its bytes, or too long. */
  function Judge(raw: Bytes, max: nat): Option<Bytes> {
    if Over(raw, max) then None else Some(Trim(raw))
  }

  /** What a whole stream comes to, from its raw lines alone. */
  function Judged(s: Bytes, max: nat, ending: Ending): seq<Option<Bytes>>
    decreases |s|
  {
    if s == [] then []
    else if Terminated(s) || ending == Eof then [Judge(Raw(s), max)] + Judged(s[|Raw(s)|..], max, ending)
    // A line a failed read cut short is dropped, unless it is already too long.
    else if |s| > max + 2 then [None]
    else []
  }

  /** The stream's results, one line at a time. */
  lemma JudgedSplit(s: Bytes, max: nat, ending: Ending)
    ensures s != [] ==> Raw(s) != [] && RawLines(s) == [Raw(s)] + RawLines(s[|Raw(s)|..])
    ensures !Terminated(s) ==> s[|Raw(s)|..] == []
    ensures Judged(s, max, ending) ==
            if s != [] && (Terminated(s) || (ending == Eof || |Raw(s)| > max + 2))
            then [Judge(Raw(s), max)] + Judged(s[|Raw(s)|..], max, ending) else []
  {
  }

  function Joined(ls: seq<Bytes>): Bytes {
    if ls == [] then [] else ls[0] + Joined(ls[1..])
  }

  /** One line: not empty, and no newline but at its end. */
  predicate IsLine(l: Bytes, last: bool) {
    && l != []
    && (forall i :: 0 <= i < |l| - 1 ==> l[i] != LF)
    && (!last ==> l[|l| - 1] == LF)
  }

  predicate AreLines(ls: seq<Bytes>) {
    forall i :: 0 <= i < |ls| ==> IsLine(ls[i], i == |ls| - 1)
  }

  /** A line in front of lines. */
  lemma ConsLines(l: Bytes, ls: seq<Bytes>)
    requires IsLine(l, ls == []) && AreLines(ls)
    ensures AreLines([l] + ls)
  {
    forall i | 0 <= i < |ls| + 1
      ensures IsLine(([l] + ls)[i], i == |ls|)
    {
      if i > 0 {
        assert ([l] + ls)[i] == ls[i - 1];
      }
    }
  }

  lemma RawIsLine(s: Bytes)
    requires s != []
    ensures IsLine(Raw(s), !Terminated(s)) && (!Terminated(s) ==> Raw(s) == s)
    ensures IsLine(Raw(s), s[|Raw(s)|..] == [])
  {
    var k := FirstAt(s, LF);
    assert forall i :: 0 <= i < |Raw(s)| ==> Raw(s)[i] == s[i];
  }

  lemma {:induction false} RawLinesJoin(s: Bytes)
    ensures Joined(RawLines(s)) == s
    decreases |s|
  {
    hide FirstAt, Raw, Terminated;
    if s != [] {
      var rest := s[|Raw(s)|..];
      RawLinesJoin(rest);
      assert RawLines(s)[1..] == RawLines(rest) && s == Raw(s) + rest;
    }
  }

  /** The raw lines are lines, and together they are the stream. */
  lemma {:induction false} RawLinesAreLines(s: Bytes)
    ensures AreLines(RawLines(s)) && Joined(RawLines(s)) == s
    decreases |s|
  {
    RawLinesJoin(s);
    if s != [] {
      var rest := s[|Raw(s)|..];
      RawLinesAreLines(rest);
      RawIsLine(s);
      hide IsLine, AreLines, FirstAt, Raw, Terminated, Joined;
      assert RawLines(rest) == [] <==> rest == [];
      ConsLines(Raw(s), RawLines(rest));
    }
  }

  /** There is no other way to cut a stream into lines. */
  lemma {:induction false} LinesAreUnique(ls: seq<Bytes>)
    requires AreLines(ls)
    ensures RawLines(Joined(ls)) == ls
  {
    hide Raw, FirstAt, IsLine;
    if ls != [] {
      TailLines(ls);
      LinesAreUnique(ls[1..]);
      FirstRaw(ls[0], Joined(ls[1..]), |ls| == 1);
    }
  }

  lemma TailLines(ls: seq<Bytes>)
    requires AreLines(ls) && ls != []
    ensures AreLines(ls[1..]) && IsLine(ls[0], |ls| == 1) && ls[0] != [] && Joined(ls) == ls[0] + Joined(ls[1..])
    ensures |ls| == 1 ==> Joined(ls[1..]) == []
  {
    assert forall i :: 0 <= i < |ls[1..]| ==> ls[1..][i] == ls[i + 1];
  }

  lemma FirstRaw(l: Bytes, more: Bytes, last: bool)
    requires IsLine(l, last) && (last ==> more == [])
    ensures Raw(l + more) == l && (l + more)[|l|..] == more
  {
    var s := l + more;
    var k := FirstAt(s, LF);
    assert forall i :: 0 <= i < |l| ==> s[i] == l[i];
  }

  // ---------- The buffered reader ----------

  /** What one read of the buffer says. */
  datatype SliceErr = Whole | BufferFull | Ended

  /** `chunk` is what one read of the buffer may take off the stream `before`. */
  predicate Slice(before: Bytes, chunk: Bytes, err: SliceErr, rest: Bytes) {
    && before == chunk + rest
    && match err
       case Whole => Terminated(before) && chunk == Raw(before)
       case BufferFull => chunk != [] && NoLF(chunk)
       case Ended => rest == [] && !Terminated(before)
  }

  /** A buffered reader: `cuts` is how its buffer will fill, any way it may. */
  class Reader {
    var rest: Bytes
    var cuts: seq<nat>
    const ending: Ending

    constructor (stream: Bytes, cuts: seq<nat>, ending: Ending)
      ensures rest == stream && this.cuts == cuts && this.ending == ending
    {
      this.rest, this.cuts, this.ending := stream, cuts, ending;
    }

    /** The bytes to the next newline, or as many as the buffer takes, or the last. */
    method ReadSlice() returns (chunk: Bytes, err: SliceErr)
      modifies this
      ensures Slice(old(rest), chunk, err, rest)
    {
      var room := Max(1, if cuts == [] then |rest| + 1 else cuts[0]);
      cuts := if cuts == [] then [] else cuts[1..];
      var k := FirstAt(rest, LF);
      if k < |rest| && k < room {
        chunk, rest, err := rest[..k + 1], rest[k + 1..], Whole;
      } else if room <= |rest| {
        chunk, rest, err := rest[..room], rest[room..], BufferFull;
      } else {
        chunk, rest, err := rest, [], Ended;
      }
    }
  }

  /** Text with no newline in front of a stream leaves the stream's lines after it. */
  lemma {:induction false} NewlineAfter(a: Bytes, s: Bytes)
    requires NoLF(a)
    ensures FirstAt(a + s, LF) == |a| + FirstAt(s, LF)
    ensures Raw(a + s) == a + Raw(s) && (Terminated(a + s) <==> Terminated(s))
  {
    if a == [] {
      assert a + s == s;
    } else {
      assert (a + s)[1..] == a[1..] + s;
      NewlineAfter(a[1..], s);
      assert Terminated(s) ==> (a + s)[..|a| + FirstAt(s, LF) + 1] == a + s[..FirstAt(s, LF) + 1];
    }
  }

  /** The first bytes of a line over the limit, where a request's id is. */
  predicate IsHead(head: Bytes, raw: Bytes, max: nat) {
    head <= raw && Min(HeadMax, max + 1) <= |head| <= HeadMax
  }

  /** What reading the line `raw` comes to, where `whole` says it ended in a newline. */
  predicate Outcome(line: Bytes, head: Bytes, tooLong: bool, err: Option<Ending>,
                    raw: Bytes, whole: bool, max: nat, ending: Ending) {
    && (if whole || (ending == Eof && raw != [] && |raw| <= max + 2)
        then err.None? && tooLong == Over(raw, max) && line == (if tooLong then [] else Trim(raw))
        else err == Some(ending) && tooLong == (|raw| > max + 2) && line == [])
    && (tooLong ==> IsHead(head, raw, max))
  }

  /** The next line, when it fits `max`; of a longer one only the head is kept. */
  method ReadLine(rd: Reader, max: nat) returns (line: Bytes, head: Bytes, tooLong: bool, err: Option<Ending>)
    modifies rd
    // The next call starts exactly at the next line.
    ensures old(rd.rest) == Raw(old(rd.rest)) + rd.rest
    ensures Outcome(line, head, tooLong, err, Raw(old(rd.rest)), Terminated(old(rd.rest)), max, rd.ending)
  {
    line, head, tooLong, err := [], [], false, None;
    ghost var s := rd.rest;
    ghost var seen: Bytes := [];
    hide Trim, FirstAt, Raw, NoLF, Terminated, Outcome, Over, KeepOk, Slice;
    FirstKeep(s, max);
    while true
      invariant Reading(s, seen, rd.rest)
      invariant KeepOk(line, head, tooLong, seen, max)
      decreases |rd.rest|
    {
      ghost var before := rd.rest;
      var chunk, got := rd.ReadSlice();
      SliceGrows(s, seen, before, chunk, got, rd.rest);
      line, head, tooLong := Keep(line, head, tooLong, chunk, max, seen);
      seen := seen + chunk;
      if got != BufferFull {
        line, head, tooLong, err := Finish(line, head, tooLong, got == Ended, max, rd.ending, seen);
        return;
      }
    }
  }

  /** `seen` of the stream `s` has been read, all of it of the first line. */
  predicate Reading(s: Bytes, seen: Bytes, rest: Bytes) {
    s == seen + rest && NoLF(seen)
  }

  /** What one more piece says of the first line. */
  lemma SliceGrows(s: Bytes, seen: Bytes, before: Bytes, chunk: Bytes, got: SliceErr, rest: Bytes)
    requires Reading(s, seen, before) && Slice(before, chunk, got, rest)
    ensures got == BufferFull ==> Reading(s, seen + chunk, rest) && |rest| < |before|
    ensures got != BufferFull ==> seen + chunk == Raw(s) && s == Raw(s) + rest && (Terminated(s) <==> got == Whole)
  {
    SliceParts(seen, before, chunk, got, rest);
    if got == BufferFull {
      JoinNoLF(seen, chunk);
    } else {
      NewlineAfter(seen, before);
      UnterminatedIsRaw(before);
    }
    hide FirstAt, Raw, Terminated, NoLF;
  }

  lemma SliceParts(seen: Bytes, before: Bytes, chunk: Bytes, got: SliceErr, rest: Bytes)
    requires Slice(before, chunk, got, rest)
    ensures before == chunk + rest && seen + before == seen + chunk + rest
    ensures got == BufferFull ==> |rest| < |before|
    ensures got == Ended ==> chunk == before && rest == []
  {
    hide Terminated, Raw, NoLF;
  }

  lemma UnterminatedIsRaw(s: Bytes)
    ensures !Terminated(s) ==> Raw(s) == s
  {
  }

  lemma JoinNoLF(a: Bytes, b: Bytes)
    ensures NoLF(a) && NoLF(b) ==> NoLF(a + b)
  {
  }

  /** The line's end has come, or the stream's. */
  method Finish(line: Bytes, head: Bytes, tooLong: bool, ended: bool, max: nat, ending: Ending, ghost raw: Bytes)
    returns (line': Bytes, head': Bytes, tooLong': bool, err: Option<Ending>)
    requires KeepOk(line, head, tooLong, raw, max)
    ensures Outcome(line', head', tooLong', err, raw, !ended, max, ending)
  {
    if ended && (ending != Eof || line == [] || tooLong) {
      return [], head, tooLong, Some(ending);
    }
    line' := Trim(line);
    if |line'| > max {
      return [], line'[..Min(|line'|, HeadMax)], true, None;
    }
    return line', head, tooLong, None;
  }

  lemma FirstKeep(s: Bytes, max: nat)
    ensures KeepOk([], [], false, [], max) && Reading(s, [], s)
  {
  }

  /** What is kept of a line of which `seen` has been read. */
  predicate KeepOk(line: Bytes, head: Bytes, tooLong: bool, seen: Bytes, max: nat) {
    && (tooLong <==> |seen| > max + 2)
    && line == (if tooLong then [] else seen)
    && (tooLong ==> IsHead(head, seen, max))
  }

  /** Keeps one more piece of the line, or of its first bytes once it is too long. */
  method Keep(line: Bytes, head: Bytes, tooLong: bool, chunk: Bytes, max: nat, ghost seen: Bytes)
    returns (line': Bytes, head': Bytes, tooLong': bool)
    requires KeepOk(line, head, tooLong, seen, max)
    ensures KeepOk(line', head', tooLong', seen + chunk, max)
  {
    line', head', tooLong' := line, head, tooLong;
    if !tooLong {
      // Room for the line's CR LF, which is not counted against max.
      if |line| + |chunk| > max + 2 {
        tooLong' := true;
        head' := line[..Min(|line|, HeadMax)] + chunk;
        head' := head'[..Min(|head'|, HeadMax)];
        line' := [];
      } else {
        line' := line + chunk;
      }
    } else {
      assert head <= seen + chunk;
    }
  }

  /** Reads every line to the end: a line, or none for one too long, whose first bytes are in `heads`. */
  method ReadAll(rd: Reader, max: nat) returns (lines: seq<Option<Bytes>>, heads: seq<Bytes>, failed: bool)
    modifies rd
    ensures lines == Judged(old(rd.rest), max, rd.ending)
    ensures failed == (rd.ending == Broken) && rd.rest == []
    ensures |heads| == |lines| <= |RawLines(old(rd.rest))|
    ensures forall i :: 0 <= i < |lines| && lines[i].None? ==> IsHead(heads[i], RawLines(old(rd.rest))[i], max)
  {
    lines, heads, failed := [], [], false;
    ghost var s := rd.rest;
    hide Outcome, Progress, Raw, Terminated, Judged, RawLines, IsHead, FirstAt, Trim;
    Begins(s, max, rd.ending);
    while true
      invariant Progress(s, rd.rest, lines, heads, max, rd.ending)
      decreases |rd.rest|, rd.rest != []
    {
      ghost var before := rd.rest;
      var line, head, tooLong, err := ReadLine(rd, max);
      OneResult(before, rd.rest, max, rd.ending, line, head, tooLong, err);
      if tooLong {
        Advance(s, before, rd.rest, lines, heads, max, rd.ending, None, head);
        lines, heads := lines + [None], heads + [head];
        continue;
      }
      if err.Some? {
        failed := err == Some(Broken);
        Finished(s, before, lines, heads, max, rd.ending);
        return;
      }
      Advance(s, before, rd.rest, lines, heads, max, rd.ending, Some(line), []);
      lines, heads := lines + [Some(line)], heads + [[]];
    }
  }

  /** The results so far are those of the lines read so far. */
  ghost predicate Progress(s: Bytes, rest: Bytes, lines: seq<Option<Bytes>>, heads: seq<Bytes>, max: nat, ending: Ending) {
    && lines + Judged(rest, max, ending) == Judged(s, max, ending)
    && |heads| == |lines| <= |RawLines(s)|
    && RawLines(s)[|lines|..] == RawLines(rest)
    && (forall i :: 0 <= i < |lines| && lines[i].None? ==> IsHead(heads[i], RawLines(s)[i], max))
  }

  lemma Begins(s: Bytes, max: nat, ending: Ending)
    ensures Progress(s, s, [], [], max, ending)
  {
  }

  lemma Finished(s: Bytes, before: Bytes, lines: seq<Option<Bytes>>, heads: seq<Bytes>, max: nat, ending: Ending)
    requires Progress(s, before, lines, heads, max, ending) && Judged(before, max, ending) == []
    ensures lines == Judged(s, max, ending) && |heads| == |lines| <= |RawLines(s)|
    ensures forall i :: 0 <= i < |lines| && lines[i].None? ==> IsHead(heads[i], RawLines(s)[i], max)
  {
  }

  /** One line read is one result. */
  lemma OneResult(before: Bytes, rest: Bytes, max: nat, ending: Ending,
                  line: Bytes, head: Bytes, tooLong: bool, err: Option<Ending>)
    requires before == Raw(before) + rest
    requires Outcome(line, head, tooLong, err, Raw(before), Terminated(before), max, ending)
    ensures tooLong || err.None? ==>
              && before != [] && |rest| < |before|
              && Judged(before, max, ending) == [if tooLong then None else Some(line)] + Judged(rest, max, ending)
              && RawLines(before) == [Raw(before)] + RawLines(rest)
              && (tooLong ==> IsHead(head, Raw(before), max))
    ensures !tooLong && err.Some? ==> Judged(before, max, ending) == [] && err == Some(ending) && rest == []
  {
    JudgedSplit(before, max, ending);
    assert before[|Raw(before)|..] == rest;
    EmptyLine();
    UnterminatedIsRaw(before);
    hide Raw, Terminated, FirstAt, Trim, IsHead, RawLines, Judged;
  }

  lemma Advance(s: Bytes, before: Bytes, rest: Bytes, lines: seq<Option<Bytes>>, heads: seq<Bytes>, max: nat,
                ending: Ending, one: Option<Bytes>, head: Bytes)
    requires Progress(s, before, lines, heads, max, ending)
    requires Judged(before, max, ending) == [one] + Judged(rest, max, ending)
    requires RawLines(before) == [Raw(before)] + RawLines(rest)
    requires one.None? ==> IsHead(head, Raw(before), max)
    ensures Progress(s, rest, lines + [one], heads + [head], max, ending)
  {
    hide Raw, Terminated, FirstAt, Trim, IsHead, RawLines, Judged;
    assert RawLines(s)[|lines|] == RawLines(s)[|lines|..][0] == Raw(before);
    assert RawLines(s)[|lines| + 1..] == RawLines(s)[|lines|..][1..];
    assert RawLines(before)[1..] == RawLines(rest);
    assert lines + [one] + Judged(rest, max, ending) == lines + Judged(before, max, ending);
  }

  lemma EmptyLine()
    ensures Raw([]) == [] && !Terminated([]) && Trim([]) == []
  {
  }

  const LineMax := 16 * 1024 * 1024

  /** At the connection's own limit the kept head is exactly the line's first bytes. */
  lemma HeadIsFirstBytes(head: Bytes, raw: Bytes)
    requires IsHead(head, raw, LineMax)
    ensures HeadMax <= |raw| && head == raw[..HeadMax]
  {
    assert |head| == HeadMax && head == raw[..|head|];
  }
}
