/**
 A debug session's send queue: the connection's reader queues messages in the
 order read, one goroutine passes them to the adapter, and at the session's end
 that goroutine closes the queue and answers what is left. Beside it, the slots
 that bound the debug sessions of one connection.
 */
module DebugSends {
  import opened Basics

  const DebugQueue := 256
  const MaxDebugs := 4

  type Msg = nat

  // ---------- The queue ----------

  datatype Queue = Queue(sends: seq<Msg>, qclosed: bool, inflight: int)

  datatype Outcome = Accepted | SessionOver | TooMany

  /** Takes a message in, or refuses it, under the queue's lock. */
  function Enqueue(q: Queue, m: Msg): (Queue, Outcome) {
    if q.qclosed then (q, SessionOver)
    else if |q.sends| < DebugQueue then (q.(sends := q.sends + [m], inflight := q.inflight + 1), Accepted)
    else (q, TooMany)
  }

  // ---------- Every interleaving with the session's end ----------

  /** The goroutine that passes messages on. */
  datatype Sender =
    | Selecting
    | Passing(m: Msg)        // taken, not yet answered
    | Answered(m: Msg)       // answered, still counted in flight
    | Closing                // saw the end
    | Draining
    | Refusing(m: Msg)       // taken after the end, not yet answered
    | Refused(m: Msg)
    | Exited

  datatype World = World(
    q: Queue,
    listed: bool,             // the connection still finds the session
    done: bool,
    reader: Option<Msg>,      // a message whose session was found, not yet queued
    sender: Sender,
    read: seq<Msg>,           // every message read for the session
    accepted: seq<Msg>,       // those queued, in order
    offered: seq<Msg>,        // those the sender took before the end, in order
    drained: seq<Msg>,        // those it took after
    good: set<Msg>,           // those the adapter took
    delivered: seq<Msg>,      // what reached the adapter, in order
    answers: map<Msg, nat>)

  datatype Event =
    | Reads(m: Msg) | Enqueues
    | Takes | Passes(ok: bool) | SeesEnd | ClosesQueue | Drains | Refuses | Settles
    | Unlists | Ends

  const Start := World(Queue([], false, 0), true, false, None, Selecting, [], [], [], [], {}, [], map[])

  function Answers(w: World, m: Msg): nat {
    if m in w.answers then w.answers[m] else 0
  }

  function Answer(w: World, m: Msg): World {
    w.(answers := w.answers[m := Answers(w, m) + 1])
  }

  function ReaderStep(w: World, e: Event): World {
    match e
    case Reads(m) =>
      if w.reader.Some? || m in w.read then w
      else
        var r := w.(read := w.read + [m]);
        if w.listed then r.(reader := Some(m)) else Answer(r, m)
    case Enqueues =>
      if w.reader.None? then w
      else
        var m := w.reader.value;
        var (q, outcome) := Enqueue(w.q, m);
        var r := w.(q := q, reader := None);
        if outcome == Accepted then r.(accepted := w.accepted + [m]) else Answer(r, m)
    case Unlists => w.(listed := false)
    case Ends => if w.listed then w else w.(done := true)
    case _ => w
  }

  function SenderStep(w: World, e: Event): World {
    match e
    case Takes =>
      if w.sender.Selecting? && w.q.sends != [] then
        w.(sender := Passing(w.q.sends[0]), q := w.q.(sends := w.q.sends[1..]), offered := w.offered + [w.q.sends[0]])
      else w
    case Passes(ok) =>
      if w.sender.Passing? then
        var m := w.sender.m;
        var passed := if ok then w.(good := w.good + {m}, delivered := w.delivered + [m]) else w;
        Answer(passed, m).(sender := Answered(m))
      else w
    case SeesEnd => if w.sender.Selecting? && w.done then w.(sender := Closing) else w
    case ClosesQueue =>
      if w.sender.Closing? then w.(sender := Draining, q := w.q.(qclosed := true)) else w
    case Drains =>
      if w.sender.Draining? then
        if w.q.sends != [] then
          w.(sender := Refusing(w.q.sends[0]), q := w.q.(sends := w.q.sends[1..]), drained := w.drained + [w.q.sends[0]])
        else w.(sender := Exited)
      else w
    case Refuses => if w.sender.Refusing? then Answer(w, w.sender.m).(sender := Refused(w.sender.m)) else w
    case Settles =>
      if w.sender.Answered? then w.(sender := Selecting, q := w.q.(inflight := w.q.inflight - 1))
      else if w.sender.Refused? then w.(sender := Draining, q := w.q.(inflight := w.q.inflight - 1))
      else w
    case _ => w
  }

  predicate OfSender(e: Event) {
    !(e.Reads? || e.Enqueues? || e.Unlists? || e.Ends?)
  }

  function Step(w: World, e: Event): World {
    if OfSender(e) then SenderStep(w, e) else ReaderStep(w, e)
  }

  function Run(w: World, es: seq<Event>): World
    decreases |es|
  {
    if es == [] then w else Run(Step(w, es[0]), es[1..])
  }

  /** The message the sender has taken and not yet answered. */
  function InHand(w: World): seq<Msg> {
    if w.sender.Passing? || w.sender.Refusing? then [w.sender.m] else []
  }

  /** Read, and still to be answered. */
  predicate Open(w: World, m: Msg) {
    w.reader == Some(m) || m in w.q.sends || m in InHand(w)
  }

  ghost predicate Distinct(s: seq<Msg>) {
    forall i, j :: 0 <= i < j < |s| ==> s[i] != s[j]
  }

  function Filter(s: seq<Msg>, keep: set<Msg>): seq<Msg> {
    if s == [] then []
    else Filter(s[..|s| - 1], keep) + if s[|s| - 1] in keep then [s[|s| - 1]] else []
  }

  /** What has been queued is what was taken, then what is queued still. */
  ghost predicate OrderOk(w: World) {
    && w.accepted == w.offered + w.drained + w.q.sends
    && (forall m :: m in w.good ==> m in w.offered)
    && w.delivered == Filter(w.offered, w.good)
    && (w.drained != [] ==> w.q.qclosed)
    && (w.sender.Passing? ==> w.offered != [] && w.offered[|w.offered| - 1] == w.sender.m && w.sender.m !in w.good)
    && (w.sender.Refusing? ==> w.drained != [] && w.drained[|w.drained| - 1] == w.sender.m)
  }

  ghost predicate CountOk(w: World) {
    && w.q.inflight == |w.q.sends| + (if w.sender.Selecting? || w.sender.Closing? || w.sender.Draining? || w.sender.Exited? then 0 else 1)
    && |w.q.sends| <= DebugQueue
    && (w.q.qclosed <==> w.sender.Draining? || w.sender.Refusing? || w.sender.Refused? || w.sender.Exited?)
    && (w.q.qclosed || w.sender.Closing? ==> w.done)
    && (w.sender.Exited? ==> w.q.sends == [])
    && (w.done ==> !w.listed)
  }

  ghost predicate ReadOk(w: World) {
    && Distinct(w.read)
    && Distinct(w.accepted)
    && (w.reader.Some? ==> w.reader.value in w.read && w.reader.value !in w.accepted)
    && (forall m :: m in w.accepted ==> m in w.read)
  }

  /** What has been read and is not open has been answered, once; nothing else has. */
  ghost predicate AnswerOk(w: World) {
    forall m :: Answers(w, m) == if m in w.read && !Open(w, m) then 1 else 0
  }

  ghost predicate Inv(w: World) {
    OrderOk(w) && CountOk(w) && ReadOk(w) && AnswerOk(w)
  }

  lemma FilterAppend(s: seq<Msg>, m: Msg, keep: set<Msg>)
    ensures Filter(s + [m], keep) == Filter(s, keep) + if m in keep then [m] else []
  {
    assert (s + [m])[..|s|] == s;
  }

  /** Keeping one more that is not there keeps the same. */
  lemma {:induction false} FilterMore(s: seq<Msg>, keep: set<Msg>, m: Msg)
    requires m !in s
    ensures Filter(s, keep + {m}) == Filter(s, keep)
  {
    if s != [] {
      FilterMore(s[..|s| - 1], keep, m);
    }
  }

  /** In a sequence that repeats nothing, no element is on both sides of a cut. */
  lemma Cut(s: seq<Msg>, a: seq<Msg>, b: seq<Msg>)
    requires Distinct(s) && s == a + b
    ensures Distinct(a) && Distinct(b) && forall m :: m in a ==> m !in b
  {
    forall i, j | 0 <= i < |a| && 0 <= j < |b|
      ensures a[i] != b[j]
    {
      assert s[i] == a[i] && s[|a| + j] == b[j];
    }
    forall i, j | 0 <= i < j < |a|
      ensures a[i] != a[j]
    {
      assert s[i] == a[i] && s[j] == a[j];
    }
    forall i, j | 0 <= i < j < |b|
      ensures b[i] != b[j]
    {
      assert s[|a| + i] == b[i] && s[|a| + j] == b[j];
    }
  }

  /** What is queued or in hand is queued or in hand once, and was taken in. */
  lemma HandFacts(w: World)
    requires OrderOk(w) && ReadOk(w)
    ensures forall m :: m in w.q.sends || m in InHand(w) ==> m in w.accepted && m in w.read && w.reader != Some(m)
    ensures forall m :: m in InHand(w) ==> m !in w.q.sends
    ensures forall m :: m in w.offered + w.drained ==> m !in w.q.sends
    ensures w.q.sends != [] ==> w.q.sends[0] !in w.q.sends[1..]
    ensures Distinct(w.offered)
  {
    var taken := w.offered + w.drained;
    Cut(w.accepted, taken, w.q.sends);
    Cut(taken, w.offered, w.drained);
    forall m | m in InHand(w)
      ensures m in taken
    {
    }
    if w.q.sends != [] {
      assert w.q.sends == [w.q.sends[0]] + w.q.sends[1..];
      Cut(w.q.sends, [w.q.sends[0]], w.q.sends[1..]);
    }
  }

  lemma OrderTakes(w: World)
    requires OrderOk(w) && ReadOk(w) && CountOk(w)
    ensures OrderOk(Step(w, Takes))
  {
    if w.sender.Selecting? && w.q.sends != [] {
      HandFacts(w);
      hide ReadOk, Distinct;
      var m := w.q.sends[0];
      assert m !in w.offered by {
        assert m in w.offered ==> m in w.offered + w.drained;
      }
      FilterAppend(w.offered, m, w.good);
      hide Filter;
      MovesOn(w.offered, w.drained, w.q.sends);
    }
  }

  /** The queue's first message, taken before any was drained, or drained. */
  lemma MovesOn(offered: seq<Msg>, drained: seq<Msg>, sends: seq<Msg>)
    requires sends != []
    ensures offered + drained + sends == offered + (drained + [sends[0]]) + sends[1..]
    ensures drained == [] ==> offered + drained + sends == (offered + [sends[0]]) + drained + sends[1..]
  {
    assert sends == [sends[0]] + sends[1..];
  }

  lemma OrderPasses(w: World, ok: bool)
    requires OrderOk(w) && ReadOk(w)
    ensures OrderOk(Step(w, Passes(ok)))
  {
    if w.sender.Passing? && ok {
      HandFacts(w);
      PassedLast(w.offered, w.good, w.sender.m);
    }
    hide ReadOk, Filter, Distinct;
  }

  /** The adapter takes the message last offered. */
  lemma PassedLast(offered: seq<Msg>, good: set<Msg>, m: Msg)
    requires Distinct(offered) && offered != [] && offered[|offered| - 1] == m && m !in good
    ensures Filter(offered, good + {m}) == Filter(offered, good) + [m]
  {
    var before := offered[..|offered| - 1];
    assert offered == before + [m];
    Cut(offered, before, [m]);
    hide Distinct, Filter;
    assert m !in before;
    FilterMore(before, good, m);
    FilterAppend(before, m, good);
    FilterAppend(before, m, good + {m});
  }

  lemma OrderStep(w: World, e: Event)
    requires OrderOk(w) && ReadOk(w) && CountOk(w)
    ensures OrderOk(Step(w, e))
  {
    match e
    case Takes => OrderTakes(w);
    case Passes(ok) => OrderPasses(w, ok);
    case Enqueues => OrderEnqueues(w);
    case Drains => OrderDrains(w);
    case _ => OrderOthers(w, e);
    hide OrderOk, ReadOk, CountOk, Step;
  }

  lemma OrderEnqueues(w: World)
    requires OrderOk(w)
    ensures OrderOk(Step(w, Enqueues))
  {
    if w.reader.Some? {
      OneMore(w.offered + w.drained, w.q.sends, w.reader.value);
    }
    hide Filter;
  }

  lemma OrderDrains(w: World)
    requires OrderOk(w) && CountOk(w)
    ensures OrderOk(Step(w, Drains))
  {
    if w.q.sends != [] {
      MovesOn(w.offered, w.drained, w.q.sends);
    }
    hide Filter;
  }

  /** The other steps take nothing in and nothing out. */
  lemma OrderOthers(w: World, e: Event)
    requires OrderOk(w) && !e.Takes? && !e.Passes? && !e.Enqueues? && !e.Drains?
    ensures OrderOk(Step(w, e))
  {
    hide Filter;
  }

  lemma OneMore(taken: seq<Msg>, sends: seq<Msg>, m: Msg)
    ensures taken + (sends + [m]) == taken + sends + [m]
  {
  }

  lemma CountStep(w: World, e: Event)
    requires CountOk(w)
    ensures CountOk(Step(w, e))
  {
  }

  lemma ReadStep(w: World, e: Event)
    requires ReadOk(w)
    ensures ReadOk(Step(w, e))
  {
    match e
    case Reads(m) => ReadReads(w, m);
    case Enqueues => ReadEnqueues(w);
    case _ =>
      OthersTakeNone(w, e);
      hide Distinct, Step;
  }

  lemma ReadReads(w: World, m: Msg)
    requires ReadOk(w)
    ensures ReadOk(Step(w, Reads(m)))
  {
  }

  lemma ReadEnqueues(w: World)
    requires ReadOk(w)
    ensures ReadOk(Step(w, Enqueues))
  {
  }

  /** A step that answers `m` where it stops being open. */
  lemma AnswersOne(w: World, v: World, m: Msg)
    requires AnswerOk(w) && v.answers == w.answers[m := Answers(w, m) + 1] && Answers(w, m) == 0
    requires forall n :: n != m ==> ((n in v.read && !Open(v, n)) <==> (n in w.read && !Open(w, n)))
    requires m in v.read && !Open(v, m)
    ensures AnswerOk(v)
  {
  }

  /** A step that answers nothing and changes nothing of what is open. */
  lemma AnswersNone(w: World, v: World)
    requires AnswerOk(w) && v.answers == w.answers
    requires forall n :: (n in v.read && !Open(v, n)) <==> (n in w.read && !Open(w, n))
    ensures AnswerOk(v)
  {
  }

  lemma AnswerReads(w: World, m: Msg)
    requires Inv(w)
    ensures AnswerOk(Step(w, Reads(m)))
  {
    HandFacts(w);
    hide OrderOk, CountOk, ReadOk;
    if w.reader.None? && m !in w.read {
      if w.listed {
        AnswersNone(w, Step(w, Reads(m)));
      } else {
        AnswersOne(w, Step(w, Reads(m)), m);
      }
    }
  }

  lemma AnswerEnqueues(w: World)
    requires Inv(w)
    ensures AnswerOk(Step(w, Enqueues))
  {
    HandFacts(w);
    if w.reader.Some? {
      var m := w.reader.value;
      assert m !in w.q.sends && m !in InHand(w);
      hide OrderOk, CountOk, ReadOk;
      if Enqueue(w.q, m).1 == Accepted {
        AnswersNone(w, Step(w, Enqueues));
      } else {
        AnswersOne(w, Step(w, Enqueues), m);
      }
    }
  }

  /** Taking a message moves it from the queue to the hand. */
  lemma AnswerTakes(w: World, e: Event)
    requires Inv(w) && (e.Takes? || e.Drains?)
    ensures AnswerOk(Step(w, e))
  {
    HandFacts(w);
    var v := Step(w, e);
    if v.q.sends != w.q.sends {
      assert w.q.sends == [w.q.sends[0]] + w.q.sends[1..];
    }
    hide OrderOk, CountOk, ReadOk;
    AnswersNone(w, v);
  }

  /** Letting go of the message in hand closes that one, and no other. */
  lemma HandCloses(w: World, v: World, m: Msg)
    requires v.reader == w.reader != Some(m) && v.read == w.read && v.q.sends == w.q.sends && m !in w.q.sends && m in w.read
    requires InHand(w) == [m] && InHand(v) == []
    ensures forall n :: n != m ==> ((n in v.read && !Open(v, n)) <==> (n in w.read && !Open(w, n)))
    ensures m in v.read && !Open(v, m) && Open(w, m)
  {
  }

  lemma AnswerShape(w: World, e: Event)
    requires (e.Passes? && w.sender.Passing?) || (e.Refuses? && w.sender.Refusing?)
    ensures var v := Step(w, e); var m := w.sender.m;
            && v.reader == w.reader && v.read == w.read && v.q.sends == w.q.sends
            && InHand(w) == [m] && InHand(v) == [] && v.answers == w.answers[m := Answers(w, m) + 1]
  {
  }

  lemma AnswerAnswers(w: World, e: Event)
    requires Inv(w) && (e.Passes? || e.Refuses?)
    ensures AnswerOk(Step(w, e))
  {
    if (e.Passes? && w.sender.Passing?) || (e.Refuses? && w.sender.Refusing?) {
      var m := w.sender.m;
      HandFacts(w);
      AnswerShape(w, e);
      hide OrderOk, CountOk, ReadOk, Distinct, Step, InHand;
      assert m in InHand(w);
      HandCloses(w, Step(w, e), m);
      assert Answers(w, m) == 0;
      hide AnswerOk, Open, Answers;
      AnswersOne(w, Step(w, e), m);
    }
  }

  lemma AnswerStep(w: World, e: Event)
    requires Inv(w)
    ensures AnswerOk(Step(w, e))
  {
    match e
    case Reads(m) => AnswerReads(w, m);
    case Enqueues => AnswerEnqueues(w);
    case Takes => AnswerTakes(w, e);
    case Drains => AnswerTakes(w, e);
    case Passes(_) => AnswerAnswers(w, e);
    case Refuses => AnswerAnswers(w, e);
    case _ =>
      hide OrderOk, CountOk, ReadOk;
      AnswersNone(w, Step(w, e));
  }

  lemma {:induction false} RunInv(w: World, es: seq<Event>)
    requires Inv(w)
    ensures Inv(Run(w, es))
    decreases |es|
  {
    hide OrderOk, CountOk, ReadOk, AnswerOk, Step;
    if es != [] {
      OrderStep(w, es[0]);
      CountStep(w, es[0]);
      ReadStep(w, es[0]);
      AnswerStep(w, es[0]);
      RunInv(Step(w, es[0]), es[1..]);
    }
  }

  function Reached(es: seq<Event>): World {
    Run(Start, es)
  }

  lemma ReachedInv(es: seq<Event>)
    ensures Inv(Reached(es))
  {
    RunInv(Start, es);
  }

  // ---------- What holds over every run ----------

  /**
   Every message read is answered at most once, and one not yet answered is with the
   reader, in the queue or in the sender's hand; once the sender has gone, every
   message taken in has been answered and nothing is in flight.
   */
  lemma AnsweredOnce(es: seq<Event>, m: Msg)
    ensures var w := Reached(es);
            && Answers(w, m) <= 1
            && (m in w.read ==> (Answers(w, m) == 1 <==> !Open(w, m)))
            && (w.sender.Exited? ==> w.q.sends == [] && w.q.inflight == 0
                                     && forall n :: n in w.accepted ==> Answers(w, n) == 1)
  {
    ReachedInv(es);
    var w := Reached(es);
    HandFacts(w);
    if w.sender.Exited? {
      forall n | n in w.accepted
        ensures Answers(w, n) == 1
      {
        assert n in w.read && !Open(w, n);
      }
    }
  }

  /** In flight is exactly what is queued and what the sender has not settled. */
  lemma InFlightBalances(es: seq<Event>)
    ensures var w := Reached(es);
            w.q.inflight == |w.q.sends| + (if w.sender.Passing? || w.sender.Answered? || w.sender.Refusing? || w.sender.Refused? then 1 else 0)
            && |w.q.sends| <= DebugQueue
  {
    ReachedInv(es);
    hide OrderOk, ReadOk, AnswerOk, Run;
  }

  /** The adapter gets, in the order read, those of the messages offered to it that it takes. */
  lemma DeliveredInOrder(es: seq<Event>)
    ensures var w := Reached(es);
            && w.accepted == Filter(Passed(w), Members(w.accepted))
            && w.offered <= w.accepted
            && w.delivered == Filter(w.offered, w.good)
  {
    ReachedInv(es);
    var w := Reached(es);
    assert w.accepted == w.offered + (w.drained + w.q.sends);
    AcceptedOrder(Start, es);
    hide OrderOk, CountOk, ReadOk, AnswerOk, Run;
  }

  function Members(s: seq<Msg>): set<Msg> {
    set m | m in s
  }

  /** The messages read, but for the one the reader still holds. */
  function Passed(w: World): seq<Msg> {
    if w.reader.Some? && w.read != [] then w.read[..|w.read| - 1] else w.read
  }

  /** The messages taken in are those of the ones read, in the order read. */
  ghost predicate AcceptedInOrder(w: World) {
    && (w.reader.Some? ==> w.read != [] && w.read[|w.read| - 1] == w.reader.value)
    && w.accepted == Filter(Passed(w), Members(w.accepted))
  }

  /** One more message read, whether it is taken in or not. */
  lemma {:induction false} FilterGrows(before: seq<Msg>, m: Msg, kept: seq<Msg>)
    requires m !in before && m !in kept && kept == Filter(before, Members(kept))
    ensures Filter(before + [m], Members(kept)) == kept
    ensures Filter(before + [m], Members(kept + [m])) == kept + [m]
  {
    assert Members(kept + [m]) == Members(kept) + {m} && m !in Members(kept);
    hide Filter, Members;
    FilterAppend(before, m, Members(kept));
    FilterMore(before, Members(kept), m);
    FilterAppend(before, m, Members(kept + [m]));
  }

  lemma AcceptedEnqueues(w: World)
    requires ReadOk(w) && AcceptedInOrder(w)
    ensures AcceptedInOrder(Step(w, Enqueues))
  {
    hide Distinct, Filter, Members;
    if w.reader.Some? {
      var m := w.reader.value;
      var before := Passed(w);
      assert w.read == before + [m];
      Cut(w.read, before, [m]);
      FilterGrows(before, m, w.accepted);
      var v := Step(w, Enqueues);
      assert v.reader.None? && v.read == w.read && (v.accepted == w.accepted || v.accepted == w.accepted + [m]);
    }
  }

  lemma AcceptedReads(w: World, m: Msg)
    requires ReadOk(w) && AcceptedInOrder(w)
    ensures AcceptedInOrder(Step(w, Reads(m)))
  {
    if w.reader.None? && m !in w.read {
      FilterAppend(w.read, m, Members(w.accepted));
    }
  }

  lemma AcceptedStep(w: World, e: Event)
    requires ReadOk(w) && AcceptedInOrder(w)
    ensures AcceptedInOrder(Step(w, e))
  {
    match e
    case Enqueues => AcceptedEnqueues(w);
    case Reads(m) => AcceptedReads(w, m);
    case _ =>
      OthersTakeNone(w, e);
      hide Filter, Members, Step, ReadOk;
  }

  lemma OthersTakeNone(w: World, e: Event)
    requires !e.Enqueues? && !e.Reads?
    ensures var v := Step(w, e); v.reader == w.reader && v.read == w.read && v.accepted == w.accepted
  {
  }

  lemma {:induction false} AcceptedOrder(w: World, es: seq<Event>)
    requires ReadOk(w) && AcceptedInOrder(w)
    ensures AcceptedInOrder(Run(w, es))
    decreases |es|
  {
    hide ReadOk, AcceptedInOrder, Step;
    if es != [] {
      AcceptedStep(w, es[0]);
      ReadStep(w, es[0]);
      AcceptedOrder(Step(w, es[0]), es[1..]);
    }
  }

  /** Once the queue is closed nothing more is taken in, and nothing more reaches the adapter. */
  lemma ClosedTakesNoMore(es: seq<Event>, more: seq<Event>)
    requires Reached(es).q.qclosed
    ensures var w := Reached(es); var v := Reached(es + more);
            v.q.qclosed && v.accepted == w.accepted && v.delivered == w.delivered
  {
    ReachedInv(es);
    RunSplit(Start, es, more);
    ClosedRun(Reached(es), more);
  }

  lemma {:induction false} RunSplit(w: World, es: seq<Event>, more: seq<Event>)
    ensures Run(w, es + more) == Run(Run(w, es), more)
    decreases |es|
  {
    if es == [] {
      assert es + more == more;
    } else {
      assert (es + more)[0] == es[0] && (es + more)[1..] == es[1..] + more;
      RunSplit(Step(w, es[0]), es[1..], more);
    }
  }

  lemma {:induction false} ClosedRun(w: World, es: seq<Event>)
    requires w.q.qclosed && CountOk(w)
    ensures var v := Run(w, es); v.q.qclosed && v.accepted == w.accepted && v.delivered == w.delivered
    decreases |es|
  {
    if es != [] {
      CountStep(w, es[0]);
      ClosedRun(Step(w, es[0]), es[1..]);
    }
  }

  /** The sender's next step once the session has ended; what it has in hand then, the adapter may take or not. */
  function NextOfSender(w: World, ok: bool): Event {
    match w.sender
    case Passing(_) => Passes(ok)
    case Selecting => SeesEnd
    case Closing => ClosesQueue
    case Refusing(_) => Refuses
    case Answered(_) => Settles
    case Refused(_) => Settles
    case _ => Drains
  }

  /** How many steps the sender has left to take. */
  function StepsLeft(w: World): nat {
    3 * |w.q.sends| +
    match w.sender
    case Exited => 0
    case Draining => 1
    case Closing => 2
    case Refused(_) => 2
    case Selecting => 3
    case Refusing(_) => 3
    case Answered(_) => 4
    case Passing(_) => 5
  }

  lemma OneStepLess(w: World, ok: bool)
    requires CountOk(w) && w.done && !w.sender.Exited?
    ensures var v := Step(w, NextOfSender(w, ok)); v.done && CountOk(v) && StepsLeft(v) == StepsLeft(w) - 1
  {
    CountStep(w, NextOfSender(w, ok));
    hide CountOk;
  }

  /**
   Once the session has ended, wherever the sender stands, its own steps alone answer
   what is left and end: three for each message queued and at most five more.
   */
  lemma {:induction false} SenderFinishes(w: World, ok: bool) returns (es: seq<Event>)
    requires CountOk(w) && w.done
    ensures Run(w, es).sender.Exited? && Run(w, es).q.sends == []
    ensures |es| == StepsLeft(w) <= 3 * |w.q.sends| + 5
    ensures forall i :: 0 <= i < |es| ==> OfSender(es[i])
    decreases StepsLeft(w)
  {
    hide Step;
    if w.sender.Exited? {
      es := [];
    } else {
      var e := NextOfSender(w, ok);
      OneStepLess(w, ok);
      var rest := SenderFinishes(Step(w, e), ok);
      es := [e] + rest;
      assert es[1..] == rest;
    }
  }

  /** From every reached state in which the session has ended: then all that was taken in has been answered. */
  lemma SenderAlwaysFinishes(es: seq<Event>, ok: bool) returns (more: seq<Event>)
    requires Reached(es).done
    ensures Reached(es + more).sender.Exited? && forall i :: 0 <= i < |more| ==> OfSender(more[i])
    ensures var w := Reached(es + more); forall m :: m in w.accepted ==> Answers(w, m) == 1
    ensures |more| <= 3 * |Reached(es).q.sends| + 5
  {
    ReachedInv(es);
    hide Run, OrderOk, ReadOk, AnswerOk;
    more := SenderFinishes(Reached(es), ok);
    RunSplit(Start, es, more);
    var w := Reached(es + more);
    forall m | m in w.accepted ensures Answers(w, m) == 1 {
      AnsweredOnce(es + more, m);
    }
  }

  // ---------- The connection's slots ----------

  /** A launch: it holds a slot, has given it back, or its session is open, or over. */
  datatype Launch = Reserved | Released | Running | Gone

  datatype Slots = Slots(debugs: set<nat>, reserved: int)

  function Reserve(s: Slots): (Slots, bool) {
    if |s.debugs| + s.reserved >= MaxDebugs then (s, false) else (s.(reserved := s.reserved + 1), true)
  }

  function Release(s: Slots): Slots {
    s.(reserved := s.reserved - 1)
  }

  function Insert(s: Slots, id: nat): Slots {
    s.(debugs := s.debugs + {id}, reserved := s.reserved - 1)
  }

  function Delete(s: Slots, id: nat): Slots {
    s.(debugs := s.debugs - {id})
  }

  datatype SlotEvent = Launches(id: nat) | Refuse(id: nat) | Opens(id: nat) | Closes(id: nat)

  datatype Connection = Connection(slots: Slots, launches: map<nat, Launch>)

  function SlotStep(c: Connection, e: SlotEvent): Connection {
    match e
    case Launches(id) =>
      var (slots, ok) := Reserve(c.slots);
      if id !in c.launches && ok then Connection(slots, c.launches[id := Reserved]) else c
    case Refuse(id) =>
      if id in c.launches && c.launches[id] == Reserved
      then Connection(Release(c.slots), c.launches[id := Released]) else c
    case Opens(id) =>
      if id in c.launches && c.launches[id] == Reserved
      then Connection(Insert(c.slots, id), c.launches[id := Running]) else c
    case Closes(id) =>
      if id in c.launches && c.launches[id] == Running
      then Connection(Delete(c.slots, id), c.launches[id := Gone]) else c
  }

  function SlotRun(c: Connection, es: seq<SlotEvent>): Connection
    decreases |es|
  {
    if es == [] then c else SlotRun(SlotStep(c, es[0]), es[1..])
  }

  ghost function InState(launches: map<nat, Launch>, l: Launch): set<nat> {
    set id | id in launches && launches[id] == l
  }

  ghost predicate SlotsOk(c: Connection) {
    && c.slots.debugs == InState(c.launches, Running)
    && c.slots.reserved == |InState(c.launches, Reserved)|
    && |c.slots.debugs| + c.slots.reserved <= MaxDebugs
  }

  lemma InStateUpdate(launches: map<nat, Launch>, id: nat, to: Launch, l: Launch)
    ensures InState(launches[id := to], l) == if to == l then InState(launches, l) + {id} else InState(launches, l) - {id}
  {
  }

  lemma SlotStepOk(c: Connection, e: SlotEvent)
    requires SlotsOk(c)
    ensures SlotsOk(SlotStep(c, e))
  {
    match e
    case Launches(id) => LaunchOk(c, id);
    case Refuse(id) => LeavesReserved(c, id, Released);
    case Opens(id) => LeavesReserved(c, id, Running);
    case Closes(id) => CloseOk(c, id);
    hide InState;
  }

  lemma LaunchOk(c: Connection, id: nat)
    requires SlotsOk(c)
    ensures SlotsOk(SlotStep(c, Launches(id)))
  {
    InStateUpdate(c.launches, id, Reserved, Reserved);
    InStateUpdate(c.launches, id, Reserved, Running);
    assert id !in c.launches ==> id !in InState(c.launches, Reserved) && id !in InState(c.launches, Running);
    hide InState;
  }

  /** A reserved slot is given back, or its session opens. */
  lemma LeavesReserved(c: Connection, id: nat, to: Launch)
    requires SlotsOk(c) && (to == Released || to == Running)
    ensures id in c.launches && c.launches[id] == Reserved ==>
              SlotsOk(SlotStep(c, if to == Released then Refuse(id) else Opens(id)))
  {
    if id in c.launches && c.launches[id] == Reserved {
      InStateUpdate(c.launches, id, to, Reserved);
      InStateUpdate(c.launches, id, to, Running);
      assert id in InState(c.launches, Reserved) && id !in InState(c.launches, Running);
    }
    hide InState;
  }

  lemma CloseOk(c: Connection, id: nat)
    requires SlotsOk(c)
    ensures SlotsOk(SlotStep(c, Closes(id)))
  {
    if id in c.launches && c.launches[id] == Running {
      InStateUpdate(c.launches, id, Gone, Reserved);
      InStateUpdate(c.launches, id, Gone, Running);
      assert id in InState(c.launches, Running) && id !in InState(c.launches, Reserved);
    }
    hide InState;
  }

  /** Open and reserved sessions are those launched and not over, and never pass the bound. */
  lemma {:induction false} SlotsBounded(c: Connection, es: seq<SlotEvent>)
    requires SlotsOk(c)
    ensures SlotsOk(SlotRun(c, es))
    decreases |es|
  {
    if es != [] {
      SlotStepOk(c, es[0]);
      SlotsBounded(SlotStep(c, es[0]), es[1..]);
    }
  }

  lemma DebugSessionsBounded(es: seq<SlotEvent>)
    ensures var c := SlotRun(Connection(Slots({}, 0), map[]), es);
            && c.slots.debugs == InState(c.launches, Running)
            && c.slots.reserved == |InState(c.launches, Reserved)|
            && |InState(c.launches, Running)| + |InState(c.launches, Reserved)| <= MaxDebugs
  {
    assert InState(map[], Running) == {} && InState(map[], Reserved) == {};
    SlotsBounded(Connection(Slots({}, 0), map[]), es);
  }
}
