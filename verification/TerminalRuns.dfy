/**
 The lines-mode terminal under every interleaving of its inputs, each handled by a
 goroutine of its own, and the one goroutine that runs the lines. An input works on
 the terminal under its lock, then queues its lines one at a time without it; the
 runner takes a line, and only then compares the Ctrl-C counts under the lock.
 */
module TerminalRuns {
  import opened Basics
  import opened LineEditor

  /** Lines an input has entered and not yet queued, with their names and its Ctrl-C count. */
  datatype Pending = Pending(lines: seq<Bytes>, ids: seq<nat>, gen: nat)

  /** The runner: at `pos` in the order queued. */
  datatype Runner = Idle | Holding(q: Queued, id: nat, pos: nat) | Cleared(line: Bytes, id: nat, pos: nat)

  /** A line run: the text the runner had, its name, and its place in the order queued. */
  datatype Ran = Ran(line: Bytes, id: nat, pos: nat)

  datatype World = World(
    t: Terminal,
    qids: seq<nat>,                    // the names of the queued lines
    inputs: map<nat, Pending>,
    runner: Runner,
    next: nat,                         // the next line's name: every line entered has a smaller one
    passed: set<nat>,                  // the lines that passed the runner's check
    pushed: seq<(nat, Bytes)>,         // every line queued, in order
    ran: seq<Ran>)                     // the lines run, in order

  const Start := World(Terminal(EscNone, [], 0, []), [], map[], Idle, 0, {}, [], [])

  /** An input in progress: its lines named as they are entered. */
  datatype Naming = Naming(w: Editing, ids: seq<nat>, qids: seq<nat>, next: nat)

  function NamedByte(n: Naming, b: byte, running: bool): Naming {
    var v := Typed(n.w, b, running);
    if b == CtrlC then
      if running then Naming(v, [], [], n.next) else Naming(v, [n.next], [], n.next + 1)
    else if v.lines != n.w.lines then Naming(v, n.ids + [n.next], n.qids, n.next + 1)
    else n.(w := v)
  }

  function Named(n: Naming, data: Bytes, running: bool): Naming
    decreases |data|
  {
    if data == [] then n else Named(NamedByte(n, data[0], running), data[1..], running)
  }

  datatype Event =
    | Enters(input: nat, data: Bytes, running: bool)
    | Queues(input: nat)
    | Takes
    | Checks
    | Runs

  /** The section of an input that holds the lock. */
  function Section(w: World, data: Bytes, running: bool): Naming {
    Named(Naming(Editing(w.t, []), [], w.qids, w.next), data, running)
  }

  function Step(w: World, e: Event): World {
    match e
    case Enters(i, data, running) =>
      if i in w.inputs then w
      else
        var n := Section(w, data, running);
        w.(t := n.w.t.(esc := EndInput(n.w.t.esc)), qids := n.qids, next := n.next,
           inputs := w.inputs[i := Pending(n.w.lines, n.ids, n.w.t.gen)])
    case Queues(i) =>
      if i in w.inputs && w.inputs[i].lines != [] && w.inputs[i].ids != [] then
        var p := w.inputs[i];
        var left := w.inputs[i := Pending(p.lines[1..], p.ids[1..], p.gen)];
        if |w.t.queue| < QueueSize then
          w.(inputs := left, t := w.t.(queue := w.t.queue + [Queued(p.lines[0], p.gen)]),
             qids := w.qids + [p.ids[0]], pushed := w.pushed + [(p.ids[0], p.lines[0])])
        else w.(inputs := left)
      else w
    case Takes =>
      if w.runner.Idle? && w.t.queue != [] && w.qids != [] && |w.pushed| >= |w.t.queue| then
        w.(runner := Holding(w.t.queue[0], w.qids[0], |w.pushed| - |w.t.queue|),
           t := w.t.(queue := w.t.queue[1..]), qids := w.qids[1..])
      else w
    case Checks =>
      if w.runner.Holding? then
        if w.runner.q.gen != w.t.gen then w.(runner := Idle)
        else w.(runner := Cleared(w.runner.q.line, w.runner.id, w.runner.pos), passed := w.passed + {w.runner.id})
      else w
    case Runs => if w.runner.Cleared? then w.(runner := Idle, ran := w.ran + [Ran(w.runner.line, w.runner.id, w.runner.pos)]) else w
  }

  function Run(w: World, es: seq<Event>): World
    decreases |es|
  {
    if es == [] then w else Run(Step(w, es[0]), es[1..])
  }

  function Reached(es: seq<Event>): World {
    Run(Start, es)
  }

  lemma {:induction false} RunSplit(w: World, es: seq<Event>, more: seq<Event>)
    ensures Run(w, es + more) == Run(Run(w, es), more)
    decreases |es|
  {
    hide Step;
    if es == [] {
      assert es + more == more;
    } else {
      assert (es + more)[0] == es[0] && (es + more)[1..] == es[1..] + more;
      RunSplit(Step(w, es[0]), es[1..], more);
    }
  }

  // ---------- A line entered before a Ctrl-C never passes the check after it ----------

  /**
   Line `id` is out: it has not passed, and wherever it still waits, it waits with a
   Ctrl-C count already gone by.
   */
  ghost predicate Out(w: World, id: nat) {
    && id !in w.passed && id < w.next
    && |w.qids| == |w.t.queue|
    && (forall i :: 0 <= i < |w.qids| && w.qids[i] == id ==> w.t.queue[i].gen < w.t.gen)
    && (forall i :: i in w.inputs && id in w.inputs[i].ids ==> w.inputs[i].gen < w.t.gen)
    && (w.runner.Holding? && w.runner.id == id ==> w.runner.q.gen < w.t.gen)
  }

  /** Nothing waits with a Ctrl-C count yet to come, and names are those given out. */
  ghost predicate GensOk(w: World) {
    && |w.qids| == |w.t.queue|
    && (forall i :: 0 <= i < |w.qids| ==> w.t.queue[i].gen <= w.t.gen && w.qids[i] < w.next)
    && (forall i :: i in w.inputs ==> w.inputs[i].gen <= w.t.gen && |w.inputs[i].ids| == |w.inputs[i].lines|
                                      && forall id :: id in w.inputs[i].ids ==> id < w.next)
    && (w.runner.Holding? ==> w.runner.q.gen <= w.t.gen && w.runner.id < w.next)
  }

  /** What an input in progress keeps of the state it began with: `gen`, `queue`, `qids`, `next`. */
  ghost predicate NamingOk(n: Naming, gen: nat, queue: seq<Queued>, qids: seq<nat>, next: nat) {
    && n.w.t.gen >= gen && n.next >= next
    && |n.ids| == |n.w.lines|
    && (forall id :: id in n.ids ==> next <= id < n.next)
    && (if n.w.t.gen == gen then n.w.t.queue == queue && n.qids == qids else n.w.t.queue == [] && n.qids == [])
  }

  lemma NamedByteOk(n: Naming, b: byte, running: bool, gen: nat, queue: seq<Queued>, qids: seq<nat>, next: nat)
    requires NamingOk(n, gen, queue, qids, next)
    ensures NamingOk(NamedByte(n, b, running), gen, queue, qids, next)
    ensures NamedByte(n, b, running).w.t.gen == n.w.t.gen + if b == CtrlC then 1 else 0
  {
  }

  lemma {:induction false} NamedOk(n: Naming, data: Bytes, running: bool, gen: nat, queue: seq<Queued>, qids: seq<nat>, next: nat)
    requires NamingOk(n, gen, queue, qids, next)
    ensures NamingOk(Named(n, data, running), gen, queue, qids, next)
    ensures CtrlC in data ==> Named(n, data, running).w.t.gen > n.w.t.gen
    ensures Named(n, data, running).w.t.gen >= n.w.t.gen
    decreases |data|
  {
    hide NamedByte, NamingOk;
    if data != [] {
      NamedByteOk(n, data[0], running, gen, queue, qids, next);
      NamedOk(NamedByte(n, data[0], running), data[1..], running, gen, queue, qids, next);
    }
  }

  lemma SectionOk(w: World, data: Bytes, running: bool)
    ensures NamingOk(Section(w, data, running), w.t.gen, w.t.queue, w.qids, w.next)
    ensures CtrlC in data ==> Section(w, data, running).w.t.gen > w.t.gen
  {
    NamedOk(Naming(Editing(w.t, []), [], w.qids, w.next), data, running, w.t.gen, w.t.queue, w.qids, w.next);
  }

  lemma GensStep(w: World, e: Event)
    requires GensOk(w)
    ensures GensOk(Step(w, e))
  {
    if e.Enters? && e.input !in w.inputs {
      GensEnters(w, e);
    } else if e.Queues? && e.input in w.inputs {
      GensQueues(w, e.input);
    }
    hide Section;
  }

  lemma GensQueues(w: World, input: nat)
    requires GensOk(w) && input in w.inputs
    ensures GensOk(Step(w, Queues(input)))
  {
    var v := Step(w, Queues(input));
    var p := w.inputs[input];
    if p.ids != [] {
      assert p.ids[0] in p.ids;
      forall i | i in v.inputs
        ensures v.inputs[i].gen <= v.t.gen && |v.inputs[i].ids| == |v.inputs[i].lines|
        ensures forall id :: id in v.inputs[i].ids ==> id in w.inputs[i].ids
      {
      }
    }
  }

  lemma GensEnters(w: World, e: Event)
    requires GensOk(w) && e.Enters? && e.input !in w.inputs
    ensures GensOk(Step(w, e))
  {
    SectionOk(w, e.data, e.running);
    var n := Section(w, e.data, e.running);
    hide Section;
    var v := Step(w, e);
    assert v.t.gen == n.w.t.gen && v.t.queue == n.w.t.queue && v.qids == n.qids && v.next == n.next;
    assert v.inputs[e.input] == Pending(n.w.lines, n.ids, n.w.t.gen);
    forall i | i in v.inputs
      ensures v.inputs[i].gen <= v.t.gen && |v.inputs[i].ids| == |v.inputs[i].lines|
      ensures forall id :: id in v.inputs[i].ids ==> id < v.next
    {
      if i != e.input {
        assert v.inputs[i] == w.inputs[i];
      }
    }
  }

  lemma OutStep(w: World, e: Event, id: nat)
    requires GensOk(w) && Out(w, id)
    ensures Out(Step(w, e), id)
  {
    if e.Enters? {
      SectionOk(w, e.data, e.running);
    }
    hide Section;
  }

  lemma {:induction false} OutRun(w: World, es: seq<Event>, id: nat)
    requires GensOk(w) && Out(w, id)
    ensures Out(Run(w, es), id)
    decreases |es|
  {
    hide Step, Out, GensOk;
    if es != [] {
      OutStep(w, es[0], id);
      GensStep(w, es[0]);
      OutRun(Step(w, es[0]), es[1..], id);
    }
  }

  lemma {:induction false} GensRun(w: World, es: seq<Event>)
    requires GensOk(w)
    ensures GensOk(Run(w, es))
    decreases |es|
  {
    hide Step, GensOk;
    if es != [] {
      GensStep(w, es[0]);
      GensRun(Step(w, es[0]), es[1..]);
    }
  }

  lemma {:induction false} NamedSplit(n: Naming, a: Bytes, b: Bytes, running: bool)
    ensures Named(n, a + b, running) == Named(Named(n, a, running), b, running)
    decreases |a|
  {
    hide NamedByte;
    if a == [] {
      assert a + b == b;
    } else {
      assert (a + b)[0] == a[0] && (a + b)[1..] == a[1..] + b;
      NamedSplit(NamedByte(n, a[0], running), a[1..], b, running);
    }
  }

  /** What the bytes after a Ctrl-C enter is named after everything entered before it. */
  lemma AfterCtrlC(w: World, before: Bytes, after: Bytes, running: bool)
    ensures var mid := Section(w, before, running); var all := Section(w, before + [CtrlC] + after, running);
            && mid.next <= all.next && all.w.t.gen > w.t.gen
            && forall id :: id in all.ids ==> id >= mid.next
  {
    var n := Naming(Editing(w.t, []), [], w.qids, w.next);
    var mid := Named(n, before, running);
    NamedSplit(n, before + [CtrlC], after, running);
    NamedSplit(n, before, [CtrlC], running);
    var cut := NamedByte(mid, CtrlC, running);
    assert Named(mid, [CtrlC], running) == cut by {
      assert [CtrlC][1..] == [];
    }
    SectionOk(w, before, running);
    SectionOk(w, before + [CtrlC] + after, running);
    assert CtrlC in before + [CtrlC] + after by {
      assert (before + [CtrlC] + after)[|before|] == CtrlC;
    }
    NamedOk(cut, after, running, cut.w.t.gen, cut.w.t.queue, cut.qids, mid.next);
    hide Named;
  }

  /**
   A line entered before a Ctrl-C, in the same input or an earlier one, that had not
   passed the runner's check by then, never passes it: whatever was typed after it,
   and however queueing, taking and checking interleave.
   */
  lemma CtrlCStopsEarlierLines(es: seq<Event>, input: nat, before: Bytes, after: Bytes, running: bool, more: seq<Event>, id: nat)
    requires var w := Reached(es);
             input !in w.inputs && id !in w.passed && id < Section(w, before, running).next
    ensures id !in Reached(es + [Enters(input, before + [CtrlC] + after, running)] + more).passed
  {
    var w := Reached(es);
    var e := Enters(input, before + [CtrlC] + after, running);
    GensRun(Start, es);
    RunSplit(Start, es + [e], more);
    RunSplit(Start, es, [e]);
    assert Run(w, [e]) == Step(w, e) by {
      assert [e][1..] == [];
    }
    AfterCtrlC(w, before, after, running);
    SectionOk(w, before + [CtrlC] + after, running);
    OutAfterCtrlC(w, e, id);
    GensStep(w, e);
    OutRun(Step(w, e), more, id);
    hide Step, GensOk, Run;
  }

  lemma OutAfterCtrlC(w: World, e: Event, id: nat)
    requires GensOk(w) && e.Enters? && e.input !in w.inputs && id !in w.passed
    requires var n := Section(w, e.data, e.running);
             && NamingOk(n, w.t.gen, w.t.queue, w.qids, w.next)
             && n.w.t.gen > w.t.gen && id < n.next && id !in n.ids
    ensures Out(Step(w, e), id)
  {
    hide Section;
  }

  // ---------- Lines run in the order they were queued ----------

  /** The queue is the tail of what was queued, and the lines that ran come before it, in order. */
  ghost predicate OrderOk(w: World) {
    && |w.qids| == |w.t.queue| <= |w.pushed|
    && (forall i :: 0 <= i < |w.qids| ==>
          w.pushed[|w.pushed| - |w.qids| + i] == (w.qids[i], w.t.queue[i].line))
    && (forall i, j :: 0 <= i < j < |w.ran| ==> w.ran[i].pos < w.ran[j].pos)
    && Reach(w) <= |w.pushed|
    && (forall i :: 0 <= i < |w.ran| ==>
          w.ran[i].pos < Reach(w) && w.pushed[w.ran[i].pos] == (w.ran[i].id, w.ran[i].line) && w.ran[i].id in w.passed)
    && (!w.runner.Idle? ==>
          0 <= Reach(w) < |w.pushed| - |w.qids|
          && w.pushed[w.runner.pos] == (w.runner.id, if w.runner.Holding? then w.runner.q.line else w.runner.line))
    && (w.runner.Cleared? ==> w.runner.id in w.passed)
  }

  /** The first place in the order queued that has not been run. */
  function Reach(w: World): int {
    if w.runner.Idle? then |w.pushed| - |w.qids| else w.runner.pos
  }

  lemma OrderStep(w: World, e: Event)
    requires GensOk(w) && OrderOk(w)
    ensures OrderOk(Step(w, e))
  {
    match e
    case Enters(_, _, _) => OrderEnters(w, e);
    case Queues(i) => OrderQueues(w, i);
    case Takes => OrderTakes(w);
    case Checks =>
    case Runs => OrderRuns(w);
  }

  lemma OrderEnters(w: World, e: Event)
    requires GensOk(w) && OrderOk(w) && e.Enters?
    ensures OrderOk(Step(w, e))
  {
    SectionOk(w, e.data, e.running);
    hide Section;
  }

  lemma OrderQueues(w: World, input: nat)
    requires OrderOk(w)
    ensures OrderOk(Step(w, Queues(input)))
  {
  }

  lemma OrderTakes(w: World)
    requires OrderOk(w)
    ensures OrderOk(Step(w, Takes))
  {
    var n := |w.pushed| - |w.qids|;
    assert w.qids != [] ==> w.pushed[n + 0] == (w.qids[0], w.t.queue[0].line);
  }

  lemma OrderRuns(w: World)
    requires OrderOk(w)
    ensures OrderOk(Step(w, Runs))
  {
  }

  lemma {:induction false} OrderRun(w: World, es: seq<Event>)
    requires GensOk(w) && OrderOk(w)
    ensures OrderOk(Run(w, es))
    decreases |es|
  {
    hide Step, OrderOk, GensOk;
    if es != [] {
      OrderStep(w, es[0]);
      GensStep(w, es[0]);
      OrderRun(Step(w, es[0]), es[1..]);
    }
  }

  /**
   What ran is what was queued: each text the runner ran is that of the line queued at its
   place, which passed the check; no line runs twice, and they run in the order queued.
   */
  lemma RunsInQueueOrder(es: seq<Event>)
    ensures var w := Reached(es);
            && (forall i :: 0 <= i < |w.ran| ==>
                  && w.ran[i].pos < |w.pushed| && w.pushed[w.ran[i].pos] == (w.ran[i].id, w.ran[i].line)
                  && w.ran[i].id in w.passed)
            && (forall i, j :: 0 <= i < j < |w.ran| ==> w.ran[i].pos < w.ran[j].pos)
            && |w.t.queue| <= |w.pushed|
  {
    OrderRun(Start, es);
    hide Run;
  }
}
