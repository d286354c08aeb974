/**
 The lines-mode terminal's input: typed bytes edit a line in place, escape
 sequences are dropped whole, and entered lines queue up to run.
 */
module LineEditor {
  import opened Basics

  type Bytes = seq<byte>

  const MaxTerminalLine := 8 * 1024
  const QueueSize := 16

  const CtrlC: byte := 3
  const Bell: byte := 7
  const Backspace: byte := 8
  const Tab: byte := 9
  const LF: byte := 10
  const CR: byte := 13
  const Esc: byte := 27
  const Space: byte := 32
  const Delete: byte := 127

  /** How much of an escape sequence has been typed. */
  datatype EscState =
    | EscNone
    | EscStart        // after ESC
    | EscCSI          // ESC [, up to its final byte
    | EscSS3          // ESC O, one more byte
    | EscString       // a string sequence, up to BEL or ESC and one more byte
    | EscStringEsc    // an ESC within one

  /** Whether a byte ends a line or interrupts, whatever sequence it comes in. */
  predicate Breaks(b: byte) {
    b == CR || b == LF || b == CtrlC
  }

  /** The bytes after ESC that start a string sequence: OSC, DCS, SOS, PM and APC. */
  predicate StartsString(b: byte) {
    b == ']' as int as byte || b == 'P' as int as byte || b == 'X' as int as byte || b == '^' as int as byte || b == '_' as int as byte
  }

  /** The state after a byte, and whether the byte belongs to an escape sequence. */
  function Drop(e: EscState, b: byte): (EscState, bool) {
    if Breaks(b) then (EscNone, false)
    else
      match e
      case EscStart =>
        (if b == '[' as int as byte then EscCSI
         else if b == 'O' as int as byte then EscSS3
         else if StartsString(b) then EscString
         else if b == Esc then EscStart
         else EscNone, true)
      case EscCSI =>
        if b < 0x20 || b > 0x7e then (EscNone, false)
        else (if b >= 0x40 then EscNone else EscCSI, true)
      case EscSS3 => (EscNone, true)
      case EscString => (if b == Bell then EscNone else if b == Esc then EscStringEsc else EscString, true)
      case EscStringEsc => (EscNone, true)
      case EscNone => if b == Esc then (EscStart, true) else (EscNone, false)
  }

  /** An entered line in the queue; `gen` counts the Ctrl-Cs before it. */
  datatype Queued = Queued(line: Bytes, gen: nat)

  datatype Terminal = Terminal(esc: EscState, line: Bytes, gen: nat, queue: seq<Queued>)

  /** A terminal in the middle of one input: `lines` are those it has entered so far. */
  datatype Editing = Editing(t: Terminal, lines: seq<Bytes>)

  /** One byte typed while a command runs or not. */
  function Typed(w: Editing, byt: byte, running: bool): Editing {
    var t := w.t;
    var (e, dropped) := Drop(t.esc, byt);
    if dropped then w.(t := t.(esc := e))
    else
      var u := t.(esc := e);
      var b := if byt == Tab then Space else byt;
      if b == CtrlC then
        Editing(u.(gen := t.gen + 1, queue := [], line := []), if running then [] else [[]])
      else if b == CR || b == LF then Editing(u.(line := []), w.lines + [t.line])
      else if b == Delete || b == Backspace then
        w.(t := if |t.line| > 0 then u.(line := t.line[..|t.line| - 1]) else u)
      else if b < 0x20 then w.(t := u)
      else w.(t := if |t.line| < MaxTerminalLine then u.(line := t.line + [b]) else u)
  }

  function TypedAll(w: Editing, data: Bytes, running: bool): Editing
    decreases |data|
  {
    if data == [] then w else TypedAll(Typed(w, data[0], running), data[1..], running)
  }

  /** The queue after `lines` are offered to it, one by one. */
  function Offered(queue: seq<Queued>, lines: seq<Bytes>, gen: nat): (r: seq<Queued>)
    ensures |queue| <= QueueSize ==> |r| <= QueueSize
    decreases |lines|
  {
    if lines == [] then queue
    else Offered(if |queue| < QueueSize then queue + [Queued(lines[0], gen)] else queue, lines[1..], gen)
  }

  /** An input's end: an ESC just typed was the Esc key, and starts no sequence. */
  function EndInput(e: EscState): EscState {
    if e == EscStart then EscNone else e
  }

  function Finish(w: Editing): Terminal {
    w.t.(esc := EndInput(w.t.esc), queue := Offered(w.t.queue, w.lines, w.t.gen))
  }

  /** One whole input, with nothing else running beside it. */
  function Input(t: Terminal, data: Bytes, running: bool): Terminal {
    Finish(TypedAll(Editing(t, []), data, running))
  }

  // ---------- The terminal ----------

  class AcpTerminal {
    var esc: EscState
    var line: Bytes
    var gen: nat
    var queue: seq<Queued>

    function View(): Terminal
      reads this
    {
      Terminal(esc, line, gen, queue)
    }

    constructor ()
      ensures View() == Terminal(EscNone, [], 0, [])
    {
      esc, line, gen, queue := EscNone, [], 0, [];
    }

    /** Drops the lines waiting to run; `dropped` counts the commands among them and `pending`. */
    method FlushLocked(pending: seq<Bytes>) returns (dropped: nat)
      modifies this`gen, this`queue
      ensures gen == old(gen) + 1 && queue == []
      ensures dropped == Commands(pending) + Commands(Texts(old(queue)))
    {
      gen := gen + 1;
      dropped := Commands(pending);
      while queue != []
        invariant dropped + Commands(Texts(queue)) == Commands(pending) + Commands(Texts(old(queue)))
        invariant gen == old(gen) + 1
        decreases |queue|
      {
        if queue[0].line != [] {
          dropped := dropped + 1;
        }
        queue := queue[1..];
      }
    }

    method TerminalInput(data: Bytes, running: bool)
      modifies this
      ensures View() == Input(old(View()), data, running)
    {
      var lines: seq<Bytes> := [];
      ghost var start := Editing(View(), []);
      for i := 0 to |data|
        invariant TypedAll(Editing(View(), lines), data[i..], running) == TypedAll(start, data, running)
      {
        ghost var before := Editing(View(), lines);
        assert data[i..][0] == data[i] && data[i..][1..] == data[i + 1..];
        var (e, dropped) := Drop(esc, data[i]);
        esc := e;
        if !dropped {
          var b := if data[i] == Tab then Space else data[i];
          if b == CtrlC {
            var _ := FlushLocked(lines);
            lines := if running then [] else [[]];
            line := [];
          } else if b == CR || b == LF {
            lines := lines + [line];
            line := [];
          } else if b == Delete || b == Backspace {
            if |line| > 0 {
              line := line[..|line| - 1];
            }
          } else if b < 0x20 {
          } else if |line| < MaxTerminalLine {
            line := line + [b];
          }
        }
        assert Editing(View(), lines) == Typed(before, data[i], running);
      }
      assert data[|data|..] == [];
      ghost var typed := Editing(View(), lines);
      esc := EndInput(esc);
      for i := 0 to |lines|
        invariant Offered(queue, lines[i..], gen) == Offered(typed.t.queue, lines, gen)
        invariant View() == typed.t.(esc := EndInput(typed.t.esc), queue := queue)
      {
        assert lines[i..][0] == lines[i] && lines[i..][1..] == lines[i + 1..];
        if |queue| < QueueSize {
          queue := queue + [Queued(lines[i], gen)];
        }
      }
      assert lines[|lines|..] == [];
    }
  }

  function Texts(queue: seq<Queued>): seq<Bytes> {
    if queue == [] then [] else [queue[0].line] + Texts(queue[1..])
  }

  /** The lines that are commands: not empty. */
  function Commands(lines: seq<Bytes>): nat {
    if lines == [] then 0 else (if lines[0] != [] then 1 else 0) + Commands(lines[1..])
  }

  // ---------- What a line may hold ----------

  predicate CleanLine(line: Bytes) {
    |line| <= MaxTerminalLine && forall i :: 0 <= i < |line| ==> line[i] >= Space && line[i] != Delete
  }

  predicate CleanTerminal(t: Terminal) {
    CleanLine(t.line) && |t.queue| <= QueueSize && forall i :: 0 <= i < |t.queue| ==> CleanLine(t.queue[i].line)
  }

  lemma TypedClean(w: Editing, b: byte, running: bool)
    requires CleanTerminal(w.t) && forall i :: 0 <= i < |w.lines| ==> CleanLine(w.lines[i])
    ensures var v := Typed(w, b, running); CleanTerminal(v.t) && forall i :: 0 <= i < |v.lines| ==> CleanLine(v.lines[i])
  {
  }

  lemma {:induction false} TypedAllClean(w: Editing, data: Bytes, running: bool)
    requires CleanTerminal(w.t) && forall i :: 0 <= i < |w.lines| ==> CleanLine(w.lines[i])
    ensures var v := TypedAll(w, data, running);
            CleanTerminal(v.t) && forall i :: 0 <= i < |v.lines| ==> CleanLine(v.lines[i])
    decreases |data|
  {
    hide Typed, CleanLine, CleanTerminal;
    if data != [] {
      TypedClean(w, data[0], running);
      TypedAllClean(Typed(w, data[0], running), data[1..], running);
    }
  }

  lemma {:induction false} OfferedClean(queue: seq<Queued>, lines: seq<Bytes>, gen: nat)
    requires forall i :: 0 <= i < |queue| ==> CleanLine(queue[i].line)
    requires forall i :: 0 <= i < |lines| ==> CleanLine(lines[i])
    ensures var r := Offered(queue, lines, gen); forall i :: 0 <= i < |r| ==> CleanLine(r[i].line)
    decreases |lines|
  {
    hide CleanLine;
    if lines != [] {
      var next := if |queue| < QueueSize then queue + [Queued(lines[0], gen)] else queue;
      assert CleanLine(lines[0]);
      assert forall i :: 0 <= i < |lines[1..]| ==> lines[1..][i] == lines[i + 1];
      OfferedClean(next, lines[1..], gen);
      assert Offered(queue, lines, gen) == Offered(next, lines[1..], gen);
    }
  }

  /** No input, however long, puts a control byte in a line, or one byte too many, or one line too many. */
  lemma InputKeepsClean(t: Terminal, data: Bytes, running: bool)
    requires CleanTerminal(t)
    ensures CleanTerminal(Input(t, data, running))
  {
    TypedAllClean(Editing(t, []), data, running);
    var w := TypedAll(Editing(t, []), data, running);
    OfferedClean(w.t.queue, w.lines, w.t.gen);
    assert Input(t, data, running).queue == Offered(w.t.queue, w.lines, w.t.gen);
    hide CleanLine, Offered, TypedAll;
  }

  // ---------- Line breaks and Ctrl-C act in every escape state ----------

  /** A line break enters the line, and Ctrl-C drops everything, wherever a sequence stands. */
  lemma BreaksAlwaysAct(w: Editing, b: byte, running: bool)
    requires Breaks(b)
    ensures var v := Typed(w, b, running);
            && v.t.esc == EscNone && v.t.line == []
            && (b != CtrlC ==> v.lines == w.lines + [w.t.line] && v.t.gen == w.t.gen && v.t.queue == w.t.queue)
            && (b == CtrlC ==> Commands(v.lines) == 0 && v.t.gen == w.t.gen + 1 && v.t.queue == [])
    ensures forall e :: Typed(w.(t := w.t.(esc := e)), b, running) == Typed(w, b, running)
  {
  }

  // ---------- Text is typed, erased and entered ----------

  predicate Plain(b: byte) {
    b >= Space && b != Delete
  }

  /** Text typed with room for it is added to the line, and `n` of its bytes erased are gone from its end. */
  lemma {:induction false} TextTyped(w: Editing, text: Bytes, running: bool)
    requires w.t.esc == EscNone && |w.t.line| + |text| <= MaxTerminalLine && forall i :: 0 <= i < |text| ==> Plain(text[i])
    ensures TypedAll(w, text, running) == w.(t := w.t.(line := w.t.line + text))
    decreases |text|
  {
    if text == [] {
      assert w.t.line + text == w.t.line;
    } else {
      assert Typed(w, text[0], running) == w.(t := w.t.(line := w.t.line + [text[0]]));
      hide Typed;
      TextTyped(w.(t := w.t.(line := w.t.line + [text[0]])), text[1..], running);
      assert w.t.line + [text[0]] + text[1..] == w.t.line + text;
    }
  }

  function Erasers(n: nat): Bytes {
    seq(n, i => Delete)
  }

  lemma {:induction false} TextErased(w: Editing, n: nat, running: bool)
    requires w.t.esc == EscNone && n <= |w.t.line|
    ensures TypedAll(w, Erasers(n), running) == w.(t := w.t.(line := w.t.line[..|w.t.line| - n]))
    decreases n
  {
    if n == 0 {
      assert w.t.line[..|w.t.line|] == w.t.line;
    } else {
      var shorter := w.(t := w.t.(line := w.t.line[..|w.t.line| - 1]));
      assert Typed(w, Delete, running) == shorter;
      hide Typed;
      assert Erasers(n)[0] == Delete && Erasers(n)[1..] == Erasers(n - 1);
      TextErased(shorter, n - 1, running);
      assert shorter.t.line[..|shorter.t.line| - (n - 1)] == w.t.line[..|w.t.line| - n];
    }
  }

  /** Text erased again byte by byte, wherever it was typed, might never have been typed. */
  lemma ErasedIsNothing(t: Terminal, before: Bytes, text: Bytes, after: Bytes, running: bool)
    requires var w := TypedAll(Editing(t, []), before, running);
             w.t.esc == EscNone && |w.t.line| + |text| <= MaxTerminalLine
    requires forall i :: 0 <= i < |text| ==> Plain(text[i])
    ensures Input(t, before + text + Erasers(|text|) + after, running) == Input(t, before + after, running)
  {
    var w := TypedAll(Editing(t, []), before, running);
    var typed := w.(t := w.t.(line := w.t.line + text));
    TypedSplit(Editing(t, []), before + text + Erasers(|text|), after, running);
    TypedSplit(Editing(t, []), before + text, Erasers(|text|), running);
    TypedSplit(Editing(t, []), before, text, running);
    TypedSplit(Editing(t, []), before, after, running);
    TextTyped(w, text, running);
    TextErased(typed, |text|, running);
    assert typed.t.line[..|typed.t.line| - |text|] == w.t.line;
    hide TypedAll, Erasers;
  }

  /** Text and a line break queue the line with the text, when there is room, and leave an empty line. */
  lemma TextEntered(t: Terminal, text: Bytes, end: byte, running: bool)
    requires t.esc == EscNone && |t.line| + |text| <= MaxTerminalLine && forall i :: 0 <= i < |text| ==> Plain(text[i])
    requires end == CR || end == LF
    ensures Input(t, text + [end], running)
         == t.(line := [], queue := if |t.queue| < QueueSize then t.queue + [Queued(t.line + text, t.gen)] else t.queue)
  {
    var w := Editing(t, []);
    TypedSplit(w, text, [end], running);
    TextTyped(w, text, running);
    TypedOne(w.(t := t.(line := t.line + text)), end, running);
    hide TypedAll;
    var lines: seq<Bytes> := [t.line + text];
    assert [] + lines == lines && lines[1..] == [];
    OfferedNone(if |t.queue| < QueueSize then t.queue + [Queued(t.line + text, t.gen)] else t.queue, t.gen);
    assert t.(line := t.line + text).(line := []) == t.(line := []);
  }

  // ---------- How input is cut does not matter ----------

  lemma {:induction false} TypedSplit(w: Editing, a: Bytes, b: Bytes, running: bool)
    ensures TypedAll(w, a + b, running) == TypedAll(TypedAll(w, a, running), b, running)
    decreases |a|
  {
    hide Typed;
    if a == [] {
      assert a + b == b;
    } else {
      assert (a + b)[0] == a[0] && (a + b)[1..] == a[1..] + b;
      TypedSplit(Typed(w, a[0], running), a[1..], b, running);
    }
  }

  lemma {:induction false} OfferedSplit(queue: seq<Queued>, a: seq<Bytes>, b: seq<Bytes>, gen: nat)
    ensures Offered(queue, a + b, gen) == Offered(Offered(queue, a, gen), b, gen)
    decreases |a|
  {
    if a == [] {
      assert a + b == b;
    } else {
      assert (a + b)[0] == a[0] && (a + b)[1..] == a[1..] + b;
      OfferedSplit(if |queue| < QueueSize then queue + [Queued(a[0], gen)] else queue, a[1..], b, gen);
    }
  }

  /** Two inputs in progress that differ only in that the second has queued the lines `early`. */
  predicate Ahead(w: Editing, v: Editing, early: seq<Bytes>) {
    && v.t == w.t.(queue := v.t.queue)
    && w.lines == early + v.lines
    && v.t.queue == Offered(w.t.queue, early, w.t.gen)
  }

  /** A Ctrl-C drops them; another byte leaves the second ahead by as much. */
  lemma TypedAhead(w: Editing, v: Editing, early: seq<Bytes>, b: byte, running: bool)
    requires Ahead(w, v, early)
    ensures Ahead(Typed(w, b, running), Typed(v, b, running), if b == CtrlC then [] else early)
  {
    var w', v' := Typed(w, b, running), Typed(v, b, running);
    OfferedNone([], w'.t.gen);
    hide Offered;
    if b == CtrlC {
      assert w'.lines == [] + v'.lines;
    } else if v'.lines != v.lines {
      assert early + (v.lines + [v.t.line]) == early + v.lines + [v.t.line];
    }
  }

  lemma OfferedNone(queue: seq<Queued>, gen: nat)
    ensures Offered(queue, [], gen) == queue
  {
  }

  lemma {:induction false} TypedAllAhead(w: Editing, v: Editing, early: seq<Bytes>, data: Bytes, running: bool)
    requires Ahead(w, v, early)
    ensures Finish(TypedAll(w, data, running)) == Finish(TypedAll(v, data, running))
    decreases |data|
  {
    hide Typed, Ahead;
    if data == [] {
      AheadFinish(w, v, early);
    } else {
      TypedAhead(w, v, early, data[0], running);
      TypedAllAhead(Typed(w, data[0], running), Typed(v, data[0], running),
                    if data[0] == CtrlC then [] else early, data[1..], running);
    }
  }

  lemma AheadFinish(w: Editing, v: Editing, early: seq<Bytes>)
    requires Ahead(w, v, early)
    ensures Finish(w) == Finish(v)
  {
    OfferedSplit(w.t.queue, early, v.lines, w.t.gen);
  }

  /**
   One input cut in two is the same to the line, the escape state, the Ctrl-C count and
   the queue, unless the cut comes right after an ESC that starts a sequence.
   */
  lemma InputCut(t: Terminal, a: Bytes, b: Bytes, running: bool)
    requires TypedAll(Editing(t, []), a, running).t.esc != EscStart
    ensures Input(Input(t, a, running), b, running) == Input(t, a + b, running)
  {
    var w := TypedAll(Editing(t, []), a, running);
    var v := Editing(Finish(w), []);
    TypedSplit(Editing(t, []), a, b, running);
    assert w.lines == w.lines + v.lines;
    TypedAllAhead(w, v, w.lines, b, running);
  }

  function Concat(pieces: seq<Bytes>): Bytes {
    if pieces == [] then [] else pieces[0] + Concat(pieces[1..])
  }

  function InputAll(t: Terminal, pieces: seq<Bytes>, running: bool): Terminal
    decreases |pieces|
  {
    if pieces == [] then t else InputAll(Input(t, pieces[0], running), pieces[1..], running)
  }

  /** No piece but the last ends right after an ESC that starts a sequence. */
  predicate CleanCuts(t: Terminal, pieces: seq<Bytes>, running: bool)
    decreases |pieces|
  {
    |pieces| <= 1 || (TypedAll(Editing(t, []), pieces[0], running).t.esc != EscStart
                      && CleanCuts(Input(t, pieces[0], running), pieces[1..], running))
  }

  /** However many pieces an input comes in, it is one input. */
  lemma {:induction false} InputPieces(t: Terminal, pieces: seq<Bytes>, running: bool)
    requires pieces != [] && CleanCuts(t, pieces, running)
    ensures InputAll(t, pieces, running) == Input(t, Concat(pieces), running)
    decreases |pieces|
  {
    if |pieces| == 1 {
      assert pieces[1..] == [] && Concat(pieces) == pieces[0] + [];
      assert pieces[0] + [] == pieces[0];
    } else {
      InputPieces(Input(t, pieces[0], running), pieces[1..], running);
      InputCut(t, pieces[0], Concat(pieces[1..]), running);
    }
  }

  /** A cut right after an ESC does matter: the rest of the sequence is then text. */
  lemma CutAfterEsc(t: Terminal)
    requires t.esc == EscNone && t.line == []
    ensures var a := [Esc]; var b := ['[' as int as byte, 'A' as int as byte];
            Input(Input(t, a, false), b, false).line == b && Input(t, a + b, false).line == []
  {
    var a := [Esc];
    var b := ['[' as int as byte, 'A' as int as byte];
    var w := Editing(t, []);
    TypedSplit(w, a, b, false);
    TypedOne(w, Esc, false);
    TypedTwo(Typed(w, Esc, false), b[0], b[1], false);
    TypedTwo(Editing(Input(t, a, false), []), b[0], b[1], false);
    hide TypedAll, Offered;
  }

  /** A byte that starts a sequence after ESC: more of it follows. */
  predicate OpensSequence(b: byte) {
    b == '[' as int as byte || b == 'O' as int as byte || StartsString(b)
  }

  /** A byte that does the same to the line typed on its own as dropped after an ESC. */
  predicate SameAfterEsc(line: Bytes, b: byte) {
    || Breaks(b) || b == Esc
    || (b < Space && b != Tab && b != Backspace)
    || ((b == Delete || b == Backspace) && line == [])
    || ((Plain(b) || b == Tab) && !OpensSequence(b) && |line| >= MaxTerminalLine)
  }

  /**
   A cut right after an ESC matters exactly by the byte that comes next: it does not if
   that breaks, is another ESC, or would have done nothing to the line; then whatever
   follows is the same too.
   */
  lemma CutAtEsc(t: Terminal, a: Bytes, b: byte, running: bool)
    requires TypedAll(Editing(t, []), a, running).t.esc == EscStart
    ensures var w := TypedAll(Editing(t, []), a, running);
            && (Input(Input(t, a, running), [b], running) == Input(t, a + [b], running) <==> SameAfterEsc(w.t.line, b))
            && (SameAfterEsc(w.t.line, b) ==>
                  forall rest :: Input(Input(t, a, running), [b] + rest, running) == Input(t, a + ([b] + rest), running))
  {
    var w := TypedAll(Editing(t, []), a, running);
    SameTyped(w, b, running);
    forall rest: Bytes | SameAfterEsc(w.t.line, b)
      ensures Input(Input(t, a, running), [b] + rest, running) == Input(t, a + ([b] + rest), running)
    {
      FromEsc(t, a, [b] + rest, running);
      TypedFirst(w, b, rest, running);
      TypedFirst(At(w, EscNone), b, rest, running);
    }
    FromEsc(t, a, [b], running);
    TypedOne(w, b, running);
    TypedOne(At(w, EscNone), b, running);
    hide Typed, Finish, Input, TypedAll, SameAfterEsc;
  }

  /** The byte after the ESC, dropped with it or typed on its own. */
  lemma SameTyped(w: Editing, b: byte, running: bool)
    requires w.t.esc == EscStart
    ensures SameAfterEsc(w.t.line, b) ==> Typed(w, b, running) == Typed(At(w, EscNone), b, running)
    ensures !SameAfterEsc(w.t.line, b) ==> Finish(Typed(w, b, running)) != Finish(Typed(At(w, EscNone), b, running))
  {
    hide Offered;
    if !SameAfterEsc(w.t.line, b) && !OpensSequence(b) {
      assert Finish(Typed(w, b, running)).line == w.t.line;
      assert |Finish(Typed(At(w, EscNone), b, running)).line| != |w.t.line|;
    }
  }

  /** After an input that ends in ESC the next starts outside any sequence, and one input goes on inside it. */
  lemma FromEsc(t: Terminal, a: Bytes, b: Bytes, running: bool)
    requires TypedAll(Editing(t, []), a, running).t.esc == EscStart
    ensures var w := TypedAll(Editing(t, []), a, running);
            && Input(t, a + b, running) == Finish(TypedAll(w, b, running))
            && Input(Input(t, a, running), b, running) == Finish(TypedAll(At(w, EscNone), b, running))
  {
    var w := TypedAll(Editing(t, []), a, running);
    var v := Editing(Finish(w), []);
    TypedSplit(Editing(t, []), a, b, running);
    assert w.lines == w.lines + v.lines;
    TypedAllAhead(At(w, EscNone), v, w.lines, b, running);
    hide TypedAll;
  }

  lemma TypedFirst(w: Editing, b: byte, rest: Bytes, running: bool)
    ensures TypedAll(w, [b] + rest, running) == TypedAll(Typed(w, b, running), rest, running)
  {
    hide Typed;
    assert ([b] + rest)[1..] == rest;
  }

  lemma TypedOne(w: Editing, b: byte, running: bool)
    ensures TypedAll(w, [b], running) == Typed(w, b, running)
  {
    hide Typed;
    assert [b][1..] == [];
  }

  lemma TypedTwo(w: Editing, b: byte, c: byte, running: bool)
    ensures TypedAll(w, [b, c], running) == Typed(Typed(w, b, running), c, running)
  {
    hide Typed;
    assert [b, c][1..] == [c];
    TypedOne(Typed(w, b, running), c, running);
  }

  // ---------- Escape sequences are dropped whole ----------

  predicate IsParam(b: byte) {
    0x20 <= b <= 0x3f
  }

  predicate IsFinal(b: byte) {
    0x40 <= b <= 0x7e
  }

  /** A byte that stays inside a string sequence. */
  predicate IsStringBody(b: byte) {
    !Breaks(b) && b != Bell && b != Esc
  }

  /** The rest of a complete sequence, after its ESC. */
  predicate SequenceTail(s: Bytes) {
    s != [] && !Breaks(s[0])
    && if s[0] == Esc then SequenceTail(s[1..])
       else if s[0] == '[' as int as byte then
         |s| >= 2 && IsFinal(s[|s| - 1]) && forall i :: 1 <= i < |s| - 1 ==> IsParam(s[i])
       else if s[0] == 'O' as int as byte then |s| == 2 && !Breaks(s[1])
       else if StartsString(s[0]) then StringTail(s[1..])
       else |s| == 1
  }

  /** A string sequence after its introducer: up to BEL, or ESC and one byte. */
  predicate StringTail(s: Bytes) {
    s != []
    && if s[0] == Bell then |s| == 1
       else if s[0] == Esc then |s| == 2 && !Breaks(s[1])
       else IsStringBody(s[0]) && StringTail(s[1..])
  }

  predicate IsSequence(q: Bytes) {
    q != [] && q[0] == Esc && SequenceTail(q[1..])
  }

  function At(w: Editing, e: EscState): Editing {
    w.(t := w.t.(esc := e))
  }

  lemma {:induction false} CsiDropped(w: Editing, s: Bytes, running: bool)
    requires s != [] && IsFinal(s[|s| - 1]) && forall i :: 0 <= i < |s| - 1 ==> IsParam(s[i])
    ensures TypedAll(At(w, EscCSI), s, running) == At(w, EscNone)
    decreases |s|
  {
    if |s| == 1 {
      assert s[1..] == [];
    } else {
      assert Typed(At(w, EscCSI), s[0], running) == At(w, EscCSI);
      CsiDropped(w, s[1..], running);
    }
  }

  lemma {:induction false} StringDropped(w: Editing, s: Bytes, running: bool)
    requires StringTail(s)
    ensures TypedAll(At(w, EscString), s, running) == At(w, EscNone)
    decreases |s|
  {
    if s[0] == Bell {
      assert s[1..] == [];
    } else if s[0] == Esc {
      assert s == [s[0], s[1]];
      TypedTwo(At(w, EscString), s[0], s[1], running);
    } else {
      assert Typed(At(w, EscString), s[0], running) == At(w, EscString);
      StringDropped(w, s[1..], running);
    }
  }

  lemma {:induction false} TailDropped(w: Editing, s: Bytes, running: bool)
    requires SequenceTail(s)
    ensures TypedAll(At(w, EscStart), s, running) == At(w, EscNone)
    decreases |s|
  {
    var first := Typed(At(w, EscStart), s[0], running);
    if s[0] == Esc {
      assert first == At(w, EscStart);
      TailDropped(w, s[1..], running);
    } else if s[0] == '[' as int as byte {
      assert first == At(w, EscCSI);
      CsiDropped(w, s[1..], running);
    } else if s[0] == 'O' as int as byte {
      assert s == [s[0], s[1]];
      TypedTwo(At(w, EscStart), s[0], s[1], running);
    } else if StartsString(s[0]) {
      assert first == At(w, EscString);
      StringDropped(w, s[1..], running);
    } else {
      assert s[1..] == [];
    }
  }

  /** A complete escape sequence anywhere in the text leaves the input as it would be without it. */
  lemma SequencesDropped(t: Terminal, before: Bytes, q: Bytes, after: Bytes, running: bool)
    requires IsSequence(q) && TypedAll(Editing(t, []), before, running).t.esc == EscNone
    ensures Input(t, before + q + after, running) == Input(t, before + after, running)
  {
    var w := TypedAll(Editing(t, []), before, running);
    TypedSplit(Editing(t, []), before + q, after, running);
    TypedSplit(Editing(t, []), before, q, running);
    TypedSplit(Editing(t, []), before, after, running);
    assert Typed(w, Esc, running) == At(w, EscStart);
    TailDropped(w, q[1..], running);
    assert At(w, EscNone) == w;
  }
}
